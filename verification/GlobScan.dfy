/** The two scanners of match.go agree: scanChunk looks only at brackets, escapes and stars,
    matchChunk parses classes member by member, yet cutting a pattern with the first and parsing
    the pieces with the second is the same as parsing the whole pattern once. */
module GlobScan {
  import opened Options
  import opened Utf8
  import opened GlobPattern
  import opened GlobMatch

  predicate NoStar(tokens: seq<Token>) {
    forall k :: 0 <= k < |tokens| ==> tokens[k] != Star
  }

  function StarRun(n: nat): seq<Token> {
    if n == 0 then [] else [Star] + StarRun(n - 1)
  }

  function Append(a: Option<seq<Token>>, b: Option<seq<Token>>): Option<seq<Token>> {
    if a.Some? && b.Some? then Some(a.value + b.value) else None
  }

  // ---------- scanChunk walks over exactly one printed term ----------

  lemma {:induction false} ScanHighBytes(bytes: seq<byte>, x: seq<byte>, inrange: bool)
    requires forall k :: 0 <= k < |bytes| ==> bytes[k] >= 0x80
    ensures ScanLen(bytes + x, inrange) == |bytes| + ScanLen(x, inrange)
  {
    if bytes == [] {
      assert bytes + x == x;
    } else {
      assert (bytes + x)[1..] == bytes[1..] + x;
      ScanHighBytes(bytes[1..], x, inrange);
    }
  }

  lemma EncodeBytes(r: int)
    requires IsScalar(r)
    ensures if r < 0x80 then Encode(r) == [r] else forall k :: 0 <= k < |Encode(r)| ==> Encode(r)[k] >= 0x80
  {
  }

  lemma ScanMember(m: Member, x: seq<byte>)
    requires ValidMember(m)
    ensures ScanLen(PrintMember(m) + x, true) == |PrintMember(m)| + ScanLen(x, true)
  {
    EncodeBytes(m.r);
    var code := Encode(m.r);
    if m.Escaped? {
      var p := PrintMember(m) + x;
      assert p[2..] == code[1..] + x;
      ScanHighBytes(code[1..], x, true);
    } else if m.r < 0x80 {
      assert (code + x)[1..] == x;
    } else {
      ScanHighBytes(code, x, true);
    }
  }

  lemma ScanRange(range: CharRange, x: seq<byte>)
    requires ValidRange(range)
    ensures ScanLen(PrintRange(range) + x, true) == |PrintRange(range)| + ScanLen(x, true)
  {
    match range
    case Single(lo) => ScanMember(lo, x);
    case Span(lo, hi) =>
      var y := [DASH] + PrintMember(hi) + x;
      assert PrintRange(range) + x == PrintMember(lo) + y;
      ScanMember(lo, y);
      assert y[1..] == PrintMember(hi) + x;
      ScanMember(hi, x);
  }

  lemma {:induction false} ScanRanges(ranges: seq<CharRange>, x: seq<byte>)
    requires ValidRanges(ranges)
    ensures ScanLen(PrintRanges(ranges) + x, true) == |PrintRanges(ranges)| + ScanLen(x, true)
  {
    if ranges == [] {
      assert PrintRanges(ranges) + x == x;
    } else {
      assert PrintRanges(ranges) + x == PrintRange(ranges[0]) + (PrintRanges(ranges[1..]) + x);
      ScanRange(ranges[0], PrintRanges(ranges[1..]) + x);
      ScanRanges(ranges[1..], x);
    }
  }

  lemma ScanByte(b: byte, x: seq<byte>, inrange: bool)
    requires b == OPEN || b == CLOSE || (b == BANG && inrange)
    ensures ScanLen([b] + x, inrange) == 1 + ScanLen(x, b != CLOSE)
  {
    assert ([b] + x)[1..] == x;
  }

  lemma ScanClassTerm(t: Term, x: seq<byte>)
    requires ValidTerm(t) && t.ClassTerm?
    ensures ScanLen(PrintTerm(t) + x, false) == |PrintTerm(t)| + ScanLen(x, false)
  {
    var body := PrintRanges(t.ranges) + ([CLOSE] + x);
    ClassText(t, x);
    ScanByte(OPEN, if t.negated then [BANG] + body else body, false);
    if t.negated {
      ScanByte(BANG, body, true);
    }
    ScanRanges(t.ranges, [CLOSE] + x);
    ScanByte(CLOSE, x, true);
  }

  /** scanChunk passes over a whole term and leaves its range flag down, whatever follows. */
  lemma ScanTerm(t: Term, x: seq<byte>)
    requires ValidTerm(t) && t != StarTerm
    ensures ScanLen(PrintTerm(t) + x, false) == |PrintTerm(t)| + ScanLen(x, false)
  {
    if t.ClassTerm? {
      ScanClassTerm(t, x);
    } else {
      var p := PrintTerm(t) + x;
      assert p[|PrintTerm(t)|..] == x;
    }
  }

  // ---------- Cutting and parsing commute ----------

  /** `c` is the chunk that scanChunk cuts off the front of `c + rest`. */
  predicate Cut(c: seq<byte>, rest: seq<byte>) {
    && ScanLen(c + rest, false) == |c|
    && (rest != [] ==> rest[0] == STAR)
  }

  lemma CutHead(c: seq<byte>, rest: seq<byte>)
    requires c != [] && Cut(c, rest)
    ensures c[0] != STAR
  {
    assert (c + rest)[0] == c[0];
  }

  lemma CutPrinted(t: Term, x: seq<byte>, rest: seq<byte>)
    requires ValidTerm(t) && t != StarTerm && Cut(PrintTerm(t) + x, rest)
    ensures Cut(x, rest)
    ensures GetTerm(PrintTerm(t) + x + rest) == Some((TermMeaning(t), x + rest))
  {
    assert PrintTerm(t) + x + rest == PrintTerm(t) + (x + rest);
    GetTermPrint(t, x + rest);
    ScanTerm(t, x + rest);
  }

  /** A cut chunk stays cut when its first term is taken off. */
  lemma CutTerm(c: seq<byte>, rest: seq<byte>)
    requires c != [] && Cut(c, rest) && GetTerm(c).Some?
    ensures GetTerm(c).value.0 != Star
    ensures Cut(GetTerm(c).value.1, rest)
    ensures GetTerm(c + rest) == Some((GetTerm(c).value.0, GetTerm(c).value.1 + rest))
  {
    CutHead(c, rest);
    var t := UnparseTerm(c);
    CutPrinted(t, GetTerm(c).value.1, rest);
  }

  lemma PrefixOf(c: seq<byte>, rest: seq<byte>, front: seq<byte>, back: seq<byte>) returns (c': seq<byte>)
    requires c + rest == front + back && |front| <= |c|
    ensures c == front + c'
  {
    c' := c[|front|..];
    assert (c + rest)[..|front|] == front;
  }

  /** What is malformed inside a chunk is malformed in the whole pattern. */
  lemma CutBadTerm(c: seq<byte>, rest: seq<byte>)
    requires c != [] && Cut(c, rest) && GetTerm(c).None?
    ensures GetTerm(c + rest).None?
  {
    if GetTerm(c + rest).Some? {
      CutHead(c, rest);
      var t := UnparseTerm(c + rest);
      ScanTerm(t, GetTerm(c + rest).value.1);
      var c' := PrefixOf(c, rest, PrintTerm(t), GetTerm(c + rest).value.1);
      GetTermPrint(t, c');
    }
  }

  lemma AppendCons(token: Token, a: Option<seq<Token>>, b: Option<seq<Token>>)
    ensures Cons(token, Append(a, b)) == Append(Cons(token, a), b)
  {
    if a.Some? && b.Some? {
      assert [token] + (a.value + b.value) == [token] + a.value + b.value;
    }
  }

  lemma AppendAssoc(a: Option<seq<Token>>, b: Option<seq<Token>>, c: Option<seq<Token>>)
    ensures Append(a, Append(b, c)) == Append(Append(a, b), c)
  {
    if a.Some? && b.Some? && c.Some? {
      assert a.value + (b.value + c.value) == a.value + b.value + c.value;
    }
  }

  lemma AppendEmpty(a: Option<seq<Token>>)
    ensures Append(Some([]), a) == a
  {
    if a.Some? {
      assert [] + a.value == a.value;
    }
  }

  lemma {:induction false} ParseCut(c: seq<byte>, rest: seq<byte>)
    requires Cut(c, rest)
    ensures Parse(c + rest) == Append(Parse(c), Parse(rest))
    ensures Parse(c).Some? ==> NoStar(Parse(c).value)
    decreases |c|
  {
    if c == [] {
      assert c + rest == rest;
      AppendEmpty(Parse(rest));
    } else if GetTerm(c).None? {
      CutBadTerm(c, rest);
    } else {
      CutTerm(c, rest);
      var (token, c') := GetTerm(c).value;
      ParseCut(c', rest);
      AppendCons(token, Parse(c'), Parse(rest));
    }
  }

  lemma {:induction false} ParseStars(p: seq<byte>)
    ensures Parse(p) == Append(Some(StarRun(Stars(p))), Parse(p[Stars(p)..]))
  {
    if p != [] && p[0] == STAR {
      ParseStars(p[1..]);
      assert p[Stars(p)..] == p[1..][Stars(p[1..])..];
      AppendCons(Star, Some(StarRun(Stars(p[1..]))), Parse(p[Stars(p)..]));
    } else {
      assert p[0..] == p;
      AppendEmpty(Parse(p));
    }
  }

  lemma CutScan(p: seq<byte>)
    ensures p[Stars(p)..] == ScanOf(p).chunk + ScanOf(p).rest
    ensures Cut(ScanOf(p).chunk, ScanOf(p).rest)
  {
    var q := p[Stars(p)..];
    var n := ScanLen(q, false);
    assert q == q[..n] + q[n..];
  }

  /** One cut: the pieces parse on their own exactly when the pattern parses, to the same tokens,
      and the chunk holds no star token. */
  lemma ParseScan(p: seq<byte>)
    ensures Parse(p) == Append(Append(Some(StarRun(Stars(p))), Parse(ScanOf(p).chunk)), Parse(ScanOf(p).rest))
    ensures Parse(ScanOf(p).chunk).Some? ==> NoStar(Parse(ScanOf(p).chunk).value)
    ensures Cut(ScanOf(p).chunk, ScanOf(p).rest)
  {
    var s := ScanOf(p);
    CutScan(p);
    ParseCut(s.chunk, s.rest);
    ParseStars(p);
    AppendAssoc(Some(StarRun(Stars(p))), Parse(s.chunk), Parse(s.rest));
  }

  /** The tokens that matchChunk sees over all the chunks, with the stars scanChunk removed put back. */
  function ChunkwiseParse(p: seq<byte>): Option<seq<Token>>
    decreases |p|
  {
    if p == [] then Some([])
    else
      var s := ScanOf(p);
      Append(Append(Some(StarRun(Stars(p))), Parse(s.chunk)), ChunkwiseParse(s.rest))
  }

  /** The scanners agree on every pattern, well formed or not. */
  lemma {:induction false} ScannersAgree(p: seq<byte>)
    ensures ChunkwiseParse(p) == Parse(p)
    decreases |p|
  {
    if p != [] {
      ParseScan(p);
      ScannersAgree(ScanOf(p).rest);
    }
  }

  /** Every text that matchChunk can still have in front of it while it works through `chunk`. */
  ghost predicate Reached(chunk: seq<byte>, at: seq<byte>)
    decreases |chunk|
  {
    || at == chunk
    || (chunk != [] && GetItem(chunk).Some? && Reached(GetItem(chunk).value.1, at))
  }

  /** No bare star outside a class is ever taken for a literal: wherever matchChunk stands in a
      chunk of any pattern, the next byte is not a star. */
  lemma {:induction false} NoLiteralStar(c: seq<byte>, rest: seq<byte>, at: seq<byte>)
    requires Cut(c, rest) && Reached(c, at)
    ensures at != [] ==> at[0] != STAR
    decreases |c|
  {
    if c != [] {
      CutHead(c, rest);
      if at != c {
        CutTerm(c, rest);
        NoLiteralStar(GetItem(c).value.1, rest, at);
      }
    }
  }

  /** A chunk that fits somewhere was parsed to its end. */
  lemma {:induction false} FitParses(c: seq<byte>, rest: seq<byte>, s: seq<byte>)
    requires Cut(c, rest) && FitChunk(c, s).Fits?
    ensures Parse(c).Some?
    decreases |c|
  {
    if c != [] {
      CutHead(c, rest);
      CutTerm(c, rest);
      var (token, c') := GetItem(c).value;
      FitParses(c', rest, s[Width(token, s)..]);
    }
  }
}
