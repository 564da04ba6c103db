/** Random identifiers: rejection sampling of base62 characters from random bytes. */
module Base62 {
  import opened Prelude

  type Byte = b: int | 0 <= b < 256

  /** n consecutive characters from c. */
  function Span(c: char, n: nat): string
    requires c as int + n < 128
  {
    seq(n, i requires 0 <= i < n => (c as int + i) as char)
  }

  /** A to Z, a to z, 0 to 9. */
  const ALPHABET: string := Span('A', 26) + Span('a', 26) + Span('0', 10)

  predicate Accepted(b: Byte) {
    b < 248
  }

  function CharOf(b: Byte): char {
    ALPHABET[b % 62]
  }

  /** The accepted bytes of a stream, in order. */
  function Kept(stream: seq<Byte>): seq<Byte> {
    if stream == [] then []
    else
      var n := |stream| - 1;
      Kept(stream[..n]) + if Accepted(stream[n]) then [stream[n]] else []
  }

  function Encoded(bytes: seq<Byte>): string {
    seq(|bytes|, i requires 0 <= i < |bytes| => CharOf(bytes[i]))
  }

  lemma {:induction false} KeptGrows(stream: seq<Byte>, k: nat)
    requires k <= |stream|
    ensures Kept(stream[..k]) <= Kept(stream)
    decreases |stream|
  {
    if k == |stream| {
      assert stream[..k] == stream;
    } else {
      assert stream[..|stream| - 1][..k] == stream[..k];
      KeptGrows(stream[..|stream| - 1], k);
    }
  }

  /**
   * RandomBase62 on the bytes rand.Read will return; the stream running out stands for a failing read. The result
   * is the encoding of exactly the first n accepted bytes, and no byte after them is read.
   */
  method RandomBase62(n: nat, stream: seq<Byte>) returns (r: Option<string>, consumed: nat)
    ensures r.Some? <==> |Kept(stream)| >= n
    ensures r.Some? ==> |Kept(stream)| >= n && r.value == Encoded(Kept(stream)[..n])
    ensures consumed <= |stream| && (r.Some? ==> |Kept(stream[..consumed])| == n)
    ensures r.Some? && n > 0 ==> consumed > 0 && Accepted(stream[consumed - 1])
    ensures r.None? ==> consumed == |stream|
  {
    var alphabetLen := |ALPHABET|;
    var limit := (256 / alphabetLen) * alphabetLen;
    assert alphabetLen == 62 && limit == 248;
    var out := new char[n];
    consumed := 0;
    assert stream[..0] == [];
    for i := 0 to n
      invariant consumed <= |stream| && |Kept(stream[..consumed])| == i
      invariant out[..i] == Encoded(Kept(stream[..consumed]))
      invariant i > 0 ==> consumed > 0 && Accepted(stream[consumed - 1])
    {
      ghost var before := consumed;
      while true
        invariant before <= consumed <= |stream| && Kept(stream[..consumed]) == Kept(stream[..before])
        invariant out[..i] == Encoded(Kept(stream[..before]))
        decreases |stream| - consumed
      {
        if consumed == |stream| {
          assert stream[..consumed] == stream;
          return None, consumed;
        }
        var b := stream[consumed];
        consumed := consumed + 1;
        assert stream[..consumed][..consumed - 1] == stream[..consumed - 1];
        if b < limit {
          out[i] := ALPHABET[b % alphabetLen];
          assert Kept(stream[..consumed]) == Kept(stream[..before]) + [b];
          assert out[..i + 1] == out[..i] + [CharOf(b)];
          break;
        }
      }
    }
    KeptGrows(stream, consumed);
    assert Kept(stream)[..n] == Kept(stream[..consumed]);
    assert out[..] == out[..n];
    return Some(out[..]), consumed;
  }

  // ---------------------------------------------------------------- every identifier is equally likely

  predicate IsBase62(s: string) {
    forall i :: 0 <= i < |s| ==> s[i] in ALPHABET
  }

  function IndexOf(c: char): (k: nat)
    requires c in ALPHABET
    ensures k < 62 && ALPHABET[k] == c
  {
    if c in Span('A', 26) then c as int - 'A' as int
    else if c in Span('a', 26) then c as int - 'a' as int + 26
    else c as int - '0' as int + 52
  }

  lemma CharsDiffer(i: nat, j: nat)
    requires i < 62 && j < 62 && ALPHABET[i] == ALPHABET[j]
    ensures i == j
  {
  }

  /** The accepted bytes that give a character. */
  function BytesFor(c: char): (s: set<Byte>)
    requires c in ALPHABET
  {
    var k := IndexOf(c);
    {k, k + 62, k + 124, k + 186}
  }

  lemma FourResidues(k: nat, b: Byte)
    requires k < 62
    ensures b == k || b == k + 62 || b == k + 124 || b == k + 186 <==> Accepted(b) && b % 62 == k
  {
  }

  lemma FourBytes(k: Byte)
    requires k < 62
    ensures |{k, k + 62, k + 124, k + 186}| == 4
  {
  }

  lemma BytesForChar(c: char, b: Byte)
    requires c in ALPHABET
    ensures b in BytesFor(c) <==> Accepted(b) && CharOf(b) == c
    ensures |BytesFor(c)| == 4
  {
    var k := IndexOf(c);
    FourResidues(k, b);
    FourBytes(k);
    if Accepted(b) && CharOf(b) == c { CharsDiffer(b % 62, k); }
  }

  /** The sequences of accepted bytes that produce an identifier. */
  function Preimages(s: string): set<seq<Byte>>
    requires IsBase62(s)
  {
    if s == "" then {[]}
    else
      var n := |s| - 1;
      Product(Preimages(s[..n]), BytesFor(s[n]))
  }

  function Pow4(n: nat): nat {
    if n == 0 then 1 else 4 * Pow4(n - 1)
  }

  lemma {:induction false} PreimagesAreExact(s: string, p: seq<Byte>)
    requires IsBase62(s)
    ensures p in Preimages(s) <==> |p| == |s| && (forall i :: 0 <= i < |p| ==> Accepted(p[i])) && Encoded(p) == s
    decreases |s|
  {
    if s == "" {
      assert Encoded([]) == "";
      assert Encoded(p) == s ==> p == [];
    } else if p == [] {
      assert forall q: seq<Byte>, b: Byte :: q + [b] != p;
      assert p !in Preimages(s);
    } else {
      var n, m := |s| - 1, |p| - 1;
      PreimagesAreExact(s[..n], p[..m]);
      BytesForChar(s[n], p[m]);
      LastOfProduct(Preimages(s[..n]), BytesFor(s[n]), p);
      EncodedSplits(p, s);
    }
  }

  lemma LastOfProduct(ps: set<seq<Byte>>, bs: set<Byte>, p: seq<Byte>)
    requires p != []
    ensures p in Product(ps, bs) <==> p[..|p| - 1] in ps && p[|p| - 1] in bs
  {
    assert p == p[..|p| - 1] + [p[|p| - 1]];
    if p in Product(ps, bs) {
      var q, b :| q in ps && b in bs && q + [b] == p;
      assert p[..|p| - 1] == q && p[|p| - 1] == b;
    }
  }

  lemma EncodedSplits(p: seq<Byte>, s: string)
    requires p != [] && s != ""
    ensures Encoded(p) == s <==> Encoded(p[..|p| - 1]) == s[..|s| - 1] && CharOf(p[|p| - 1]) == s[|s| - 1]
  {
    assert Encoded(p) == Encoded(p[..|p| - 1]) + [CharOf(p[|p| - 1])];
    assert s == s[..|s| - 1] + [s[|s| - 1]];
  }

  /** Appending each of four bytes to each of a set of sequences gives four times as many sequences. */
  lemma {:induction false} ProductCard(ps: set<seq<Byte>>, bs: set<Byte>)
    requires |bs| == 4
    ensures |Product(ps, bs)| == 4 * |ps|
    decreases |ps|
  {
    if ps == {} {
      assert Product(ps, bs) == {};
    } else {
      var p0 :| p0 in ps;
      ProductCard(ps - {p0}, bs);
      RowCard(p0, bs);
      ProductSplits(ps, bs, p0);
      DisjointCard(Product(ps - {p0}, bs), set b | b in bs :: p0 + [b]);
    }
  }

  lemma DisjointCard<T>(a: set<T>, b: set<T>)
    requires a !! b
    ensures |a + b| == |a| + |b|
  {
  }

  function Product(ps: set<seq<Byte>>, bs: set<Byte>): set<seq<Byte>> {
    set p, b | p in ps && b in bs :: p + [b]
  }

  lemma ProductSplits(ps: set<seq<Byte>>, bs: set<Byte>, p0: seq<Byte>)
    requires p0 in ps
    ensures var rest, row := Product(ps - {p0}, bs), set b | b in bs :: p0 + [b];
      Product(ps, bs) == rest + row && rest !! row
  {
    var rest, row := Product(ps - {p0}, bs), set b | b in bs :: p0 + [b];
    forall x | x in Product(ps, bs) ensures x in rest + row {
      var p, b :| p in ps && b in bs && p + [b] == x;
      if p != p0 { assert p in ps - {p0}; }
    }
    forall x | x in rest ensures x !in row {
      var p, b :| p in ps - {p0} && b in bs && p + [b] == x;
      assert x[..|x| - 1] == p;
      assert forall c: Byte :: (p0 + [c])[..|p0|] == p0;
    }
  }

  lemma {:induction false} RowCard(p: seq<Byte>, bs: set<Byte>)
    ensures |set b | b in bs :: p + [b]| == |bs|
    decreases |bs|
  {
    var row := set b | b in bs :: p + [b];
    if bs != {} {
      var b0 :| b0 in bs;
      var rest := set b | b in bs - {b0} :: p + [b];
      RowCard(p, bs - {b0});
      assert row == rest + {p + [b0]};
      assert p + [b0] !in rest by {
        forall b | b in bs - {b0} ensures p + [b] != p + [b0] {
          assert (p + [b])[|p|] == b;
        }
      }
    }
  }

  /** Unbiased: every identifier of length n has exactly 4^n preimages among the accepted byte sequences of length n. */
  lemma {:induction false} EquallyLikely(s: string)
    requires IsBase62(s)
    ensures |Preimages(s)| == Pow4(|s|)
    decreases |s|
  {
    if s == "" {
      assert |Preimages(s)| == 1;
    } else {
      var n := |s| - 1;
      EquallyLikely(s[..n]);
      BytesForChar(s[n], 0);
      ProductCard(Preimages(s[..n]), BytesFor(s[n]));
    }
  }
}
