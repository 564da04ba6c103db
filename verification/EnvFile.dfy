/** Rewriting one binding of an env file in place. */
module EnvFile {
  import opened Prelude
  import opened Text

  /** The position of the first newline, or the length of the text. */
  function Break(s: string): (k: nat)
    ensures k <= |s| && (k < |s| ==> s[k] == '\n') && forall i :: 0 <= i < k ==> s[i] != '\n'
  {
    if s == "" || s[0] == '\n' then 0 else 1 + Break(s[1..])
  }

  /** strings.SplitAfter(s, "\n"): the last piece is what follows the last newline, possibly empty. */
  function SplitAfter(s: string): seq<string> {
    var k := Break(s);
    if k == |s| then [s] else [s[..k + 1]] + SplitAfter(s[k + 1..])
  }

  /** The lines of a text, with their newlines; no line is empty. */
  function Lines(s: string): seq<string> {
    if s == "" then []
    else
      var k := Break(s);
      if k == |s| then [s] else [s[..k + 1]] + Lines(s[k + 1..])
  }

  function Concat(lines: seq<string>): string {
    if lines == [] then "" else lines[0] + Concat(lines[1..])
  }

  /** strings.TrimRight(line, "\r\n"). */
  function Body(line: string): (r: string)
    ensures r <= line
  {
    if line != "" && line[|line| - 1] in "\r\n" then Body(line[..|line| - 1]) else line
  }

  /** The line ending that was trimmed. */
  function Ending(line: string): string {
    line[|Body(line)|..]
  }

  /** envLineMatchesKey. */
  predicate Matches(line: string, key: string) {
    HasPrefix(TrimSpace(line), key + "=") || HasPrefix(TrimSpace(line), "export " + key + "=")
  }

  predicate NoBreaks(s: string) {
    forall i :: 0 <= i < |s| ==> s[i] != '\n' && s[i] != '\r'
  }

  /** The line ending written after the binding. */
  function NewEnding(line: string): string {
    if Ending(line) == "" then "\n" else Ending(line)
  }

  /** What becomes of one line. */
  function Rewritten(line: string, key: string, binding: string): string {
    if Matches(Body(line), key) then binding + NewEnding(line) else line
  }

  function RewrittenAll(lines: seq<string>, key: string, binding: string): seq<string> {
    seq(|lines|, i requires 0 <= i < |lines| => Rewritten(lines[i], key, binding))
  }

  /** One of the first k lines matches. */
  predicate Hit(lines: seq<string>, k: nat, key: string)
    requires k <= |lines|
  {
    k > 0 && (Hit(lines, k - 1, key) || Matches(Body(lines[k - 1]), key))
  }

  /** The first k lines after rewriting. */
  function Out(lines: seq<string>, k: nat, key: string, binding: string): string
    requires k <= |lines|
  {
    if k == 0 then "" else Out(lines, k - 1, key, binding) + Rewritten(lines[k - 1], key, binding)
  }

  /** The lines with a final newline added where it is missing. */
  function Closed(lines: seq<string>): seq<string> {
    if lines != [] && !EndsLine(lines[|lines| - 1]) then lines[..|lines| - 1] + [lines[|lines| - 1] + "\n"] else lines
  }

  predicate EndsLine(s: string) {
    s != "" && s[|s| - 1] == '\n'
  }

  /** The lines of the new file: matching ones replaced in place, or the binding added at the end. */
  function NewLines(lines: seq<string>, key: string, binding: string): seq<string> {
    if Hit(lines, |lines|, key) then RewrittenAll(lines, key, binding) else Closed(lines) + [binding + "\n"]
  }

  // ---------------------------------------------------------------- lines and texts

  /** A list of lines as a text has them: newlines only at the ends of lines, and at the ends of all but the last. */
  ghost predicate LineList(lines: seq<string>) {
    forall i :: 0 <= i < |lines| ==> LineOk(lines[i]) && (i < |lines| - 1 ==> EndsLine(lines[i]))
  }

  ghost predicate LineOk(line: string) {
    line != "" && forall j :: 0 <= j < |line| - 1 ==> line[j] != '\n'
  }

  lemma {:induction false} LinesOfText(s: string)
    ensures LineList(Lines(s)) && Concat(Lines(s)) == s
    decreases |s|
  {
    if s != "" {
      var k := Break(s);
      if k == |s| {
        assert Concat([s]) == s + Concat([]);
      } else {
        LinesOfText(s[k + 1..]);
        assert Lines(s)[1..] == Lines(s[k + 1..]);
        assert s == s[..k + 1] + s[k + 1..];
        forall i | 0 <= i < |Lines(s)| ensures LineOk(Lines(s)[i]) && (i < |Lines(s)| - 1 ==> EndsLine(Lines(s)[i])) {
          if i > 0 { assert Lines(s)[i] == Lines(s[k + 1..])[i - 1]; }
        }
      }
    }
  }

  lemma {:induction false} TextOfLines(lines: seq<string>)
    requires LineList(lines)
    ensures Lines(Concat(lines)) == lines
    decreases |lines|
  {
    if lines != [] {
      var head, rest := lines[0], Concat(lines[1..]);
      assert LineOk(head) && (|lines| > 1 ==> EndsLine(head));
      forall i | 0 <= i < |lines[1..]|
        ensures LineOk(lines[1..][i]) && (i < |lines[1..]| - 1 ==> EndsLine(lines[1..][i]))
      {
        assert lines[1..][i] == lines[i + 1];
      }
      TextOfLines(lines[1..]);
      assert lines == [head] + lines[1..];
      HeadLine(head, rest);
    }
  }

  /** The first line of a text, and the rest of it. */
  lemma HeadLine(head: string, rest: string)
    requires LineOk(head) && (EndsLine(head) || rest == "")
    ensures Lines(head + rest) == [head] + Lines(rest)
  {
    var s := head + rest;
    if EndsLine(head) {
      BreakAt(s, |head| - 1);
      assert s[..|head|] == head && s[|head|..] == rest;
    } else {
      assert s == head;
      BreakAt(s, |head|);
    }
  }

  lemma BreakAt(s: string, k: nat)
    requires k <= |s| && (k < |s| ==> s[k] == '\n') && forall i :: 0 <= i < k ==> s[i] != '\n'
    ensures Break(s) == k
  {
  }

  /** SplitAfter gives the lines, and one empty piece where the text ends with a newline or is empty. */
  lemma {:induction false} SplitIsLines(s: string)
    ensures SplitAfter(s) == Lines(s) + (if s == "" || EndsLine(s) then [""] else [])
    decreases |s|
  {
    var k := Break(s);
    if k < |s| {
      SplitIsLines(s[k + 1..]);
      assert s[k + 1..] == "" ==> EndsLine(s);
      assert s[k + 1..] != "" ==> (EndsLine(s) <==> EndsLine(s[k + 1..]));
    }
  }

  lemma {:induction false} ConcatSnoc(lines: seq<string>, line: string)
    ensures Concat(lines + [line]) == Concat(lines) + line
    decreases |lines|
  {
    if lines == [] {
      assert Concat([line]) == line + Concat([]);
    } else {
      assert (lines + [line])[0] == lines[0] && (lines + [line])[1..] == lines[1..] + [line];
      ConcatSnoc(lines[1..], line);
    }
  }

  // ---------------------------------------------------------------- the program

  /**
   * writeEnvBinding on the text of the file, None for a blank key: the loop over the pieces, then the append when
   * nothing was replaced.
   */
  method WriteEnvBinding(existing: string, key: string, value: string) returns (r: Option<string>)
    ensures r.None? <==> TrimSpace(key) == ""
    ensures r.Some? ==> r.value == Concat(NewLines(Lines(existing), key, key + "=" + value))
  {
    if TrimSpace(key) == "" { return None; }
    var binding := key + "=" + value;
    var b, replaced := RewriteLines(existing, key, binding);
    if replaced {
      ghost var all := RewrittenAll(Lines(existing), key, binding);
      OutIsConcat(Lines(existing), |all|, key, binding);
      assert all[..|all|] == all;
    } else {
      Unreplaced(Lines(existing), key, binding, existing);
      if |b| > 0 && !EndsLine(b) { b := b + "\n"; }
      b := b + binding;
      b := b + "\n";
    }
    return Some(b);
  }

  /** The loop: every piece is written back, changed when it matches. */
  method RewriteLines(existing: string, key: string, binding: string) returns (b: string, replaced: bool)
    ensures var lines := Lines(existing);
      b == Out(lines, |lines|, key, binding) && (replaced <==> Hit(lines, |lines|, key))
  {
    var pieces := SplitAfter(existing);
    b, replaced := "", false;
    ghost var lines := Lines(existing);
    SplitIsLines(existing);
    NoEmptyLine(existing);
    ghost var done := 0;
    for i := 0 to |pieces|
      invariant done <= i && done <= |lines| && (done < |lines| ==> done == i)
      invariant b == Out(lines, done, key, binding) && (replaced <==> Hit(lines, done, key))
    {
      if pieces[i] == "" { continue; }
      var line, hit := RewriteLine(pieces[i], key, binding);
      OneMore(lines, done, key, binding);
      b := b + line;
      replaced := replaced || hit;
      done := done + 1;
    }
  }

  lemma OneMore(lines: seq<string>, k: nat, key: string, binding: string)
    requires k < |lines|
    ensures Out(lines, k + 1, key, binding) == Out(lines, k, key, binding) + Rewritten(lines[k], key, binding)
    ensures Hit(lines, k + 1, key) <==> Hit(lines, k, key) || Matches(Body(lines[k]), key)
  {
  }

  /** The body of the loop, for a piece that is not empty. */
  method RewriteLine(line: string, key: string, binding: string) returns (r: string, hit: bool)
    ensures r == Rewritten(line, key, binding) && hit == Matches(Body(line), key)
  {
    var trimmed := Body(line);
    var lineEnding := line[|trimmed|..];
    if Matches(trimmed, key) {
      if lineEnding == "" { lineEnding := "\n"; }
      return binding + lineEnding, true;
    }
    return line, false;
  }

  lemma NoEmptyLine(s: string)
    ensures forall i :: 0 <= i < |Lines(s)| ==> Lines(s)[i] != ""
  {
    LinesOfText(s);
    assert forall i :: 0 <= i < |Lines(s)| ==> LineOk(Lines(s)[i]);
  }

  lemma {:induction false} OutIsConcat(lines: seq<string>, k: nat, key: string, binding: string)
    requires k <= |lines|
    ensures Out(lines, k, key, binding) == Concat(RewrittenAll(lines, key, binding)[..k])
    decreases k
  {
    if k > 0 {
      OutIsConcat(lines, k - 1, key, binding);
      ConcatTake(RewrittenAll(lines, key, binding), k);
    }
  }

  lemma ConcatTake(lines: seq<string>, k: nat)
    requires 0 < k <= |lines|
    ensures Concat(lines[..k]) == Concat(lines[..k - 1]) + lines[k - 1]
  {
    ConcatSnoc(lines[..k - 1], lines[k - 1]);
    assert lines[..k] == lines[..k - 1] + [lines[k - 1]];
  }

  /** Without a match the lines stay as they are. */
  lemma {:induction false} NoHit(lines: seq<string>, k: nat, key: string, binding: string)
    requires k <= |lines| && !Hit(lines, k, key)
    ensures Out(lines, k, key, binding) == Concat(lines[..k])
    decreases k
  {
    if k > 0 {
      NoHit(lines, k - 1, key, binding);
      ConcatSnoc(lines[..k - 1], lines[k - 1]);
      assert lines[..k] == lines[..k - 1] + [lines[k - 1]];
    }
  }

  /** Appending to the unchanged text is appending to its closed lines. */
  lemma Unreplaced(lines: seq<string>, key: string, binding: string, existing: string)
    requires lines == Lines(existing) && !Hit(lines, |lines|, key)
    ensures Out(lines, |lines|, key, binding) == existing
    ensures Concat(Closed(lines) + [binding + "\n"])
            == (if existing != "" && !EndsLine(existing) then existing + "\n" else existing) + binding + "\n"
  {
    LinesOfText(existing);
    NoHit(lines, |lines|, key, binding);
    assert lines[..|lines|] == lines;
    Appended(lines, binding);
  }

  lemma Appended(lines: seq<string>, binding: string)
    requires LineList(lines)
    ensures var s := Concat(lines);
      Concat(Closed(lines) + [binding + "\n"]) == (if s != "" && !EndsLine(s) then s + "\n" else s) + binding + "\n"
  {
    ConcatSnoc(Closed(lines), binding + "\n");
    ClosedText(lines);
    Associates(Concat(Closed(lines)), binding);
  }

  lemma Associates(s: string, t: string)
    ensures s + (t + "\n") == s + t + "\n"
  {
  }

  lemma ClosedText(lines: seq<string>)
    requires LineList(lines)
    ensures var s := Concat(lines); Concat(Closed(lines)) == if s != "" && !EndsLine(s) then s + "\n" else s
  {
    if lines != [] {
      var n := |lines| - 1;
      var last := lines[n];
      assert lines == lines[..n] + [last];
      ConcatSnoc(lines[..n], last);
      ConcatSnoc(lines[..n], last + "\n");
      assert LineOk(last);
      LastChar(Concat(lines[..n]), last);
    }
  }

  lemma LastChar(s: string, t: string)
    requires t != ""
    ensures s + t != "" && (EndsLine(s + t) <==> EndsLine(t)) && s + (t + "\n") == (s + t) + "\n"
  {
  }

  // ---------------------------------------------------------------- what the new file holds

  lemma BodyOf(text: string, ending: string)
    requires NoBreaks(text) && forall i :: 0 <= i < |ending| ==> ending[i] in "\r\n"
    ensures Body(text + ending) == text
    decreases |ending|
  {
    if ending == "" {
      assert text + ending == text;
    } else {
      var n := |ending| - 1;
      assert (text + ending)[..|text + ending| - 1] == text + ending[..n];
      BodyOf(text, ending[..n]);
    }
  }

  lemma {:induction false} EndingIsBreaks(line: string)
    ensures forall i :: |Body(line)| <= i < |line| ==> line[i] in "\r\n"
    decreases |line|
  {
    if line != "" && line[|line| - 1] in "\r\n" { EndingIsBreaks(line[..|line| - 1]); }
  }

  /** A rewritten line is a line again, with the same ending and the binding as its text. */
  lemma RewrittenLine(line: string, key: string, binding: string)
    requires LineOk(line) && NoBreaks(binding)
    ensures LineOk(Rewritten(line, key, binding)) && (EndsLine(line) ==> EndsLine(Rewritten(line, key, binding)))
    ensures Matches(Body(line), key) ==>
              Body(Rewritten(line, key, binding)) == binding && Ending(Rewritten(line, key, binding)) != ""
  {
    NewLine(line, binding);
  }

  lemma NewLine(line: string, binding: string)
    requires LineOk(line) && NoBreaks(binding)
    ensures var after := binding + NewEnding(line);
      LineOk(after) && (EndsLine(line) ==> EndsLine(after)) && Body(after) == binding && Ending(after) != ""
  {
    var e := NewEnding(line);
    EndingIsBreaks(line);
    assert forall i :: 0 <= i < |Ending(line)| ==> Ending(line)[i] == line[|Body(line)| + i];
    BodyOf(binding, e);
    if EndsLine(line) { assert Ending(line) != "" && Ending(line)[|Ending(line)| - 1] == '\n'; }
    ShortLine(binding, e);
  }

  lemma ShortLine(binding: string, e: string)
    requires NoBreaks(binding) && e != "" && forall j :: 0 <= j < |e| - 1 ==> e[j] != '\n'
    ensures LineOk(binding + e) && (EndsLine(e) ==> EndsLine(binding + e))
  {
  }

  /** The rewritten lines again are the lines of a text, so the new file has exactly these lines. */
  lemma NewLinesAreLines(lines: seq<string>, key: string, binding: string)
    requires LineList(lines) && NoBreaks(binding)
    ensures LineList(NewLines(lines, key, binding))
    ensures Lines(Concat(NewLines(lines, key, binding))) == NewLines(lines, key, binding)
  {
    var p := NewLines(lines, key, binding);
    if Hit(lines, |lines|, key) {
      forall i | 0 <= i < |p| ensures LineOk(p[i]) && (i < |p| - 1 ==> EndsLine(p[i])) {
        assert LineOk(lines[i]) && (i < |lines| - 1 ==> EndsLine(lines[i]));
        RewrittenLine(lines[i], key, binding);
      }
    } else {
      forall i | 0 <= i < |p| ensures LineOk(p[i]) && (i < |p| - 1 ==> EndsLine(p[i])) {
        if i < |lines| {
          assert LineOk(lines[i]) && (i < |lines| - 1 ==> EndsLine(lines[i]));
          if i == |lines| - 1 && !EndsLine(lines[i]) { ClosedLine(lines[i]); }
        } else {
          ClosedLine(binding);
        }
      }
    }
    TextOfLines(p);
  }

  lemma ClosedLine(text: string)
    requires forall j :: 0 <= j < |text| ==> text[j] != '\n'
    ensures LineOk(text + "\n") && EndsLine(text + "\n")
  {
  }

  lemma ClosedBody(line: string)
    ensures Body(line + "\n") == Body(line)
  {
    assert (line + "\n")[..|line|] == line;
  }

  lemma {:induction false} HitAt(lines: seq<string>, k: nat, key: string)
    requires k <= |lines|
    ensures Hit(lines, k, key) <==> exists i :: 0 <= i < k && Matches(Body(lines[i]), key)
    decreases k
  {
    if k > 0 { HitAt(lines, k - 1, key); }
  }

  /** The text of the file after writeEnvBinding. */
  function After(existing: string, key: string, value: string): string {
    Concat(NewLines(Lines(existing), key, key + "=" + value))
  }

  /** What a line of the new file is, given the line that stood there. */
  predicate LineEffect(line: string, after: string, key: string, binding: string, last: bool) {
    if Matches(Body(line), key) then Body(after) == binding
    else after == line || (last && !EndsLine(line) && after == line + "\n")
  }

  lemma HitEffect(lines: seq<string>, key: string, binding: string, i: nat)
    requires LineList(lines) && NoBreaks(binding) && i < |lines|
    ensures LineEffect(lines[i], RewrittenAll(lines, key, binding)[i], key, binding, false)
  {
    assert LineOk(lines[i]);
    RewrittenLine(lines[i], key, binding);
  }

  lemma MissEffect(lines: seq<string>, key: string, binding: string, i: nat)
    requires i < |lines| && !Hit(lines, |lines|, key)
    ensures LineEffect(lines[i], Closed(lines)[i], key, binding, i == |lines| - 1)
  {
    HitAt(lines, |lines|, key);
  }

  // ---------------------------------------------------------------- rewriting twice

  lemma {:induction false} TrimKeeps(s: string, j: nat)
    requires j < |s| && !IsSpace(s[j])
    ensures j < |TrimRight(s)|
    decreases |s|
  {
    if IsSpace(s[|s| - 1]) { TrimKeeps(s[..|s| - 1], j); }
  }

  lemma {:induction false} TrimDrops(s: string) returns (k: nat)
    ensures k <= |s| && TrimLeft(s) == s[k..] && forall i :: 0 <= i < k ==> IsSpace(s[i])
    decreases |s|
  {
    if s != "" && IsSpace(s[0]) {
      var j := TrimDrops(s[1..]);
      k := j + 1;
      assert s[1..][j..] == s[k..];
      forall i | 0 <= i < k ensures IsSpace(s[i]) { if i > 0 { assert s[i] == s[1..][i - 1]; } }
    } else {
      k := 0;
    }
  }

  /** No text made of spaces and a repeated prefix can continue with an equals sign where the repetition goes on. */
  lemma {:induction false} Periodic(t: string, p: string, u: string)
    requires p != "" && '=' !in p && p + t + "=" <= u
    ensures !(t + "=" <= u)
    decreases |t|
  {
    var n := |t|;
    assert (t + "=")[n] == '=';
    if n < |p| {
      assert (p + t + "=")[n] == p[n];
      assert u[n] == p[n] && p[n] in p;
    } else if t + "=" <= u {
      assert forall i :: 0 <= i < |p| ==> (p + t + "=")[i] == p[i] && (t + "=")[i] == t[i];
      assert t[..|p|] == p;
      var t' := t[|p|..];
      assert t == p + t';
      var u' := u[|p|..];
      assert p + t + "=" == p + (p + t' + "=");
      assert p + t' + "=" <= u' && t' + "=" <= u' by {
        assert forall i :: 0 <= i < |p + t' + "="| ==> (p + t' + "=")[i] == (p + t + "=")[|p| + i];
        assert forall i :: 0 <= i < |t' + "="| ==> (t' + "=")[i] == (t + "=")[|p| + i];
      }
      Periodic(t', p, u');
    }
  }

  /** The binding matches its own key exactly when the key does not start with a space. */
  lemma BindingMatches(key: string, value: string)
    requires TrimSpace(key) != ""
    ensures Matches(key + "=" + value, key) <==> !IsSpace(key[0])
  {
    var s := key + "=" + value;
    assert key != "";
    if !IsSpace(key[0]) {
      assert s[0] == key[0] && s[|key|] == '=';
      assert TrimLeft(s) == s;
      TrimKeeps(s, |key|);
      assert key + "=" == s[..|key| + 1] <= TrimRight(s);
    } else {
      var k := TrimDrops(s);
      SpacedKey(key, value, k);
    }
  }

  lemma SpacedKey(key: string, value: string, k: nat)
    requires key != "" && IsSpace(key[0])
    requires var s := key + "=" + value; k <= |s| && TrimLeft(s) == s[k..] && forall i :: 0 <= i < k ==> IsSpace(s[i])
    ensures !Matches(key + "=" + value, key)
  {
    var s := key + "=" + value;
    var r := TrimSpace(s);
    assert r <= s[k..];
    assert s[|key|] == '=' && k <= |key|;
    assert s[k..] == key[k..] + "=" + value;
    assert (key + "=")[0] == key[0] && (r != "" ==> r[0] == TrimLeft(s)[0] && !IsSpace(r[0]));
    if HasPrefix(r, "export " + key + "=") {
      var gap, t := key[..k], key[k..];
      assert key == gap + t;
      assert "export " + key + "=" == ("export " + gap) + t + "=";
      assert '=' !in "export " + gap by { assert forall i :: 0 <= i < k ==> gap[i] == s[i]; }
      assert t + "=" <= s[k..];
      Periodic(t, "export " + gap, s[k..]);
    }
  }

  /** A line of the new file that matches is the binding, with a line ending. */
  ghost predicate Written(line: string, key: string, binding: string) {
    Matches(Body(line), key) ==> Body(line) == binding && Ending(line) != ""
  }

  lemma HitWritten(lines: seq<string>, key: string, binding: string, i: nat)
    requires LineList(lines) && NoBreaks(binding) && i < |lines|
    ensures Written(Rewritten(lines[i], key, binding), key, binding)
    ensures Matches(Body(lines[i]), key) ==> Body(Rewritten(lines[i], key, binding)) == binding
  {
    assert LineOk(lines[i]);
    RewrittenLine(lines[i], key, binding);
  }

  lemma MissWritten(lines: seq<string>, key: string, binding: string, i: nat)
    requires NoBreaks(binding) && i <= |lines| && !Hit(lines, |lines|, key)
    ensures Written((Closed(lines) + [binding + "\n"])[i], key, binding)
    ensures i == |lines| ==> Body((Closed(lines) + [binding + "\n"])[i]) == binding
  {
    BodyOf(binding, "\n");
    if i < |lines| {
      HitAt(lines, |lines|, key);
      ClosedBody(lines[i]);
    }
  }

  /** Every line of the new file is written in this sense, and one of them is the binding. */
  lemma AllWritten(lines: seq<string>, key: string, binding: string) returns (k: nat)
    requires LineList(lines) && NoBreaks(binding)
    ensures var after := NewLines(lines, key, binding);
      (forall i :: 0 <= i < |after| ==> Written(after[i], key, binding)) && k < |after| && Body(after[k]) == binding
  {
    var after := NewLines(lines, key, binding);
    if Hit(lines, |lines|, key) {
      forall i | 0 <= i < |after| ensures Written(after[i], key, binding) { HitWritten(lines, key, binding, i); }
      HitAt(lines, |lines|, key);
      k :| 0 <= k < |lines| && Matches(Body(lines[k]), key);
      HitWritten(lines, key, binding, k);
    } else {
      forall i | 0 <= i < |after| ensures Written(after[i], key, binding) { MissWritten(lines, key, binding, i); }
      k := |lines|;
      MissWritten(lines, key, binding, k);
    }
  }

  /**
   * For a key and a value without line breaks and any file: every matching line becomes exactly the binding, every
   * other
   * line stays at its place, only a missing final newline being added; the binding is there at least once.
   */
  lemma RewriteEffect(existing: string, key: string, value: string)
    requires NoBreaks(key) && NoBreaks(value)
    ensures var lines, after := Lines(existing), Lines(After(existing, key, value));
      && |after| == |lines| + (if Hit(lines, |lines|, key) then 0 else 1)
      && (forall i :: 0 <= i < |lines| ==> LineEffect(lines[i], after[i], key, key + "=" + value, i == |lines| - 1))
      && (!Hit(lines, |lines|, key) ==> after[|lines|] == key + "=" + value + "\n")
      && (exists i :: 0 <= i < |after| && Body(after[i]) == key + "=" + value)
  {
    var lines, binding := Lines(existing), key + "=" + value;
    LinesOfText(existing);
    NewLinesAreLines(lines, key, binding);
    var after := Lines(After(existing, key, value));
    assert after == NewLines(lines, key, binding);
    forall i | 0 <= i < |lines| ensures LineEffect(lines[i], after[i], key, binding, i == |lines| - 1) {
      if Hit(lines, |lines|, key) { HitEffect(lines, key, binding, i); } else { MissEffect(lines, key, binding, i); }
    }
    var k := AllWritten(lines, key, binding);
    assert Body(after[k]) == binding;
  }

  lemma WrittenStays(line: string, key: string, binding: string)
    requires Written(line, key, binding)
    ensures Rewritten(line, key, binding) == line
  {
    assert line == Body(line) + Ending(line);
  }

  /** A second rewriting changes nothing when the binding matches its key. */
  lemma SettledAll(lines: seq<string>, key: string, binding: string)
    requires LineList(lines) && NoBreaks(binding) && Matches(binding, key)
    ensures var after := NewLines(lines, key, binding); NewLines(after, key, binding) == after
  {
    var after := NewLines(lines, key, binding);
    var k := AllWritten(lines, key, binding);
    forall i | 0 <= i < |after| ensures Rewritten(after[i], key, binding) == after[i] {
      WrittenStays(after[i], key, binding);
    }
    HitAt(after, |after|, key);
  }

  /** Otherwise no line of the new file matches, and the second rewriting appends the binding once more. */
  lemma AppendedAgain(lines: seq<string>, key: string, binding: string)
    requires LineList(lines) && NoBreaks(binding) && !Matches(binding, key)
    ensures var after := NewLines(lines, key, binding); !Hit(after, |after|, key)
  {
    var after := NewLines(lines, key, binding);
    var k := AllWritten(lines, key, binding);
    HitAt(after, |after|, key);
    assert forall i :: 0 <= i < |after| ==> Written(after[i], key, binding);
  }

  /**
   * Rewriting twice is rewriting once exactly for keys that do not start with a space, whatever the file; any other
   * key is appended again each time.
   */
  lemma RewriteTwice(existing: string, key: string, value: string)
    requires NoBreaks(key) && NoBreaks(value) && TrimSpace(key) != ""
    ensures After(After(existing, key, value), key, value) == After(existing, key, value) <==> !IsSpace(key[0])
  {
    var lines, binding := Lines(existing), key + "=" + value;
    var after := NewLines(lines, key, binding);
    LinesOfText(existing);
    NewLinesAreLines(lines, key, binding);
    BindingMatches(key, value);
    if Matches(binding, key) {
      SettledAll(lines, key, binding);
    } else {
      AppendedAgain(lines, key, binding);
      ConcatSnoc(Closed(after), binding + "\n");
      ClosedText(after);
    }
  }
}
