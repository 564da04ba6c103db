/** OAuth scope strings: splitting, membership and normalisation (internal/mcpoauth/server.go). */
module Scopes {
  import opened Prelude
  import opened Text

  const MCP := "mcp"
  const OFFLINE := "offline_access"
  const CONFIG := "config:write"

  /** The length of the first run of non-space characters. */
  function WordLen(s: string): (n: nat)
    ensures n <= |s| && Spaceless(s[..n])
    ensures n < |s| ==> IsSpace(s[n])
  {
    if s == "" || IsSpace(s[0]) then 0
    else
      var n := 1 + WordLen(s[1..]);
      assert s[..n] == [s[0]] + s[1..][..n - 1];
      n
  }

  /** strings.Fields: the maximal runs of non-space characters. */
  function Fields(s: string): seq<string>
    decreases |s|
  {
    if s == "" then []
    else if IsSpace(s[0]) then Fields(s[1..])
    else [s[..WordLen(s)]] + Fields(s[WordLen(s)..])
  }

  /** strings.Join with a single space. */
  function Join(words: seq<string>): string {
    if |words| == 0 then ""
    else if |words| == 1 then words[0]
    else words[0] + (" " + Join(words[1..]))
  }

  lemma JoinTwo(a: string, b: string)
    ensures Join([a, b]) == a + (" " + b)
  {
    assert [a, b][1..] == [b];
  }

  predicate Words(words: seq<string>) {
    forall i :: 0 <= i < |words| ==> words[i] != "" && Spaceless(words[i])
  }

  lemma {:induction false} WordThenSpace(w: string, rest: string)
    requires Spaceless(w) && (rest == "" || IsSpace(rest[0]))
    ensures WordLen(w + rest) == |w|
  {
    if w == "" {
      assert w + rest == rest;
    } else {
      assert (w + rest)[1..] == w[1..] + rest;
      WordThenSpace(w[1..], rest);
    }
  }

  lemma {:induction false} FieldsOfJoin(words: seq<string>)
    requires Words(words)
    ensures Fields(Join(words)) == words
  {
    if |words| == 1 {
      var w := words[0];
      WordThenSpace(w, "");
      assert w + "" == w && w[..|w|] == w;
    } else if |words| > 1 {
      var w, rest := words[0], " " + Join(words[1..]);
      WordThenSpace(w, rest);
      assert (w + rest)[..|w|] == w && (w + rest)[|w|..] == rest;
      assert rest[1..] == Join(words[1..]);
      FieldsOfJoin(words[1..]);
    }
  }

  function Tokens(s: string): set<string> {
    set t | t in Fields(s)
  }

  predicate HasScope(scope: string, want: string) {
    want in Fields(scope)
  }

  /** The known tokens among those asked for, in the fixed order of a normal form. */
  function Listing(asked: set<string>): seq<string> {
    [MCP] + (if OFFLINE in asked then [OFFLINE] else []) + (if CONFIG in asked then [CONFIG] else [])
  }

  /** The tokens a request stands for: an absent scope asks for the client default. */
  function Asked(raw: string): set<string> {
    if raw == "" then {MCP, OFFLINE} else Tokens(raw)
  }

  /** The scope a request is granted, or None when it names an unknown token or leaves out mcp. */
  function Normalized(raw: string): Option<string> {
    if Asked(raw) <= {MCP, OFFLINE, CONFIG} && MCP in Asked(raw) then Some(Join(Listing(Asked(raw)))) else None
  }

  /** A normal form, represented by the optional permissions it lists next to mcp. */
  datatype Scope = Scope(offline: bool, config: bool)

  /** The scope a request is granted. */
  function Requested(raw: string): Option<Scope> {
    if Normalized(raw).None? then None else Some(Scope(OFFLINE in Asked(raw), CONFIG in Asked(raw)))
  }

  function ScopeText(s: Scope): string {
    Join(Listing({MCP} + (if s.offline then {OFFLINE} else {}) + (if s.config then {CONFIG} else {})))
  }

  /** hasScope: the loop over the fields. */
  method FindScope(scope: string, want: string) returns (found: bool)
    ensures found == HasScope(scope, want)
  {
    var fields := Fields(scope);
    for i := 0 to |fields|
      invariant want !in fields[..i]
    {
      if fields[i] == want { return true; }
      assert fields[..i + 1] == fields[..i] + [fields[i]];
    }
    assert fields[..|fields|] == fields;
    return false;
  }

  /** normalizeScope: the loop that collects the tokens seen and lists them in a fixed order. */
  method NormalizeScope(raw: string) returns (scope: Option<string>)
    ensures scope == Normalized(raw)
  {
    if raw == "" {
      assert |OFFLINE| == 14 && |CONFIG| == 12;
      assert Listing({MCP, OFFLINE}) == [MCP, OFFLINE];
      JoinTwo(MCP, OFFLINE);
      assert MCP + (" " + OFFLINE) == "mcp offline_access";
      return Some("mcp offline_access");
    }
    var seen: map<string, bool> := map[];
    var fields := Fields(raw);
    for i := 0 to |fields|
      invariant seen.Keys == set t | t in fields[..i]
      invariant forall t :: t in seen ==> seen[t]
      invariant seen.Keys <= {MCP, OFFLINE, CONFIG}
    {
      var v := fields[i];
      if v != MCP && v != OFFLINE && v != CONFIG {
        assert v in Tokens(raw);
        return None;
      }
      seen := seen[v := true];
      assert fields[..i + 1] == fields[..i] + [v];
    }
    assert fields[..|fields|] == fields;
    assert seen.Keys == Tokens(raw);
    if MCP !in seen { return None; }
    var out := [MCP];
    var rest := [OFFLINE, CONFIG];
    for i := 0 to 2
      invariant out == [MCP] + (if i > 0 && OFFLINE in seen then [OFFLINE] else [])
                             + (if i > 1 && CONFIG in seen then [CONFIG] else [])
    {
      if rest[i] in seen { out := out + [rest[i]]; }
    }
    return Some(Join(out));
  }

  lemma ListingMembers(asked: set<string>)
    requires asked <= {MCP, OFFLINE, CONFIG} && MCP in asked
    ensures Words(Listing(asked)) && asked == set t | t in Listing(asked)
  {
    assert |MCP| == 3 && |OFFLINE| == 14 && |CONFIG| == 12;
  }

  lemma JoinedFields(words: seq<string>)
    requires Words(words) && words != []
    ensures Join(words) != "" && Fields(Join(words)) == words
    ensures Tokens(Join(words)) == set t | t in words
    ensures forall t :: HasScope(Join(words), t) <==> t in words
  {
    FieldsOfJoin(words);
  }

  /** The normal form says exactly what was asked. */
  lemma NormalFormKeepsTokens(raw: string)
    requires Normalized(raw).Some?
    ensures Normalized(raw).value != "" && Tokens(Normalized(raw).value) == Asked(raw)
    ensures forall t :: HasScope(Normalized(raw).value, t) <==> t in Asked(raw)
  {
    ListingMembers(Asked(raw));
    JoinedFields(Listing(Asked(raw)));
  }

  /** Normalising a normal form changes nothing. */
  lemma NormalFormIsFixed(raw: string)
    requires Normalized(raw).Some?
    ensures Normalized(Normalized(raw).value) == Normalized(raw)
  {
    NormalFormKeepsTokens(raw);
  }

  /** Two supported requests get the same scope exactly when they ask for the same set of tokens. */
  lemma NormalFormDecidesTokens(a: string, b: string)
    requires Normalized(a).Some? && Normalized(b).Some?
    ensures Normalized(a) == Normalized(b) <==> Asked(a) == Asked(b)
  {
    NormalFormKeepsTokens(a);
    NormalFormKeepsTokens(b);
  }

  /** Scope values stand for normal forms: the text that is stored, and what hasScope answers about it. */
  lemma RequestedScope(raw: string)
    requires Requested(raw).Some?
    ensures Normalized(raw) == Some(ScopeText(Requested(raw).value))
    ensures HasScope(Normalized(raw).value, OFFLINE) <==> Requested(raw).value.offline
    ensures HasScope(Normalized(raw).value, CONFIG) <==> Requested(raw).value.config
  {
    assert |MCP| == 3 && |OFFLINE| == 14 && |CONFIG| == 12;
    NormalFormKeepsTokens(raw);
    assert Asked(raw) == {MCP} + (if OFFLINE in Asked(raw) then {OFFLINE} else {})
                         + (if CONFIG in Asked(raw) then {CONFIG} else {});
  }
}
