/** The pattern language of common/blacklist/match.go: the documented grammar as syntax trees,
    the parser that matchChunk and getEsc carry out between them, and the proof that the parser
    accepts exactly what the grammar generates. */
module GlobPattern {
  import opened Options
  import opened Utf8

  const STAR: byte := '*' as int
  const QUESTION: byte := '?' as int
  const BACKSLASH: byte := '\\' as int
  const OPEN: byte := '[' as int
  const CLOSE: byte := ']' as int
  const BANG: byte := '!' as int
  const DASH: byte := '-' as int

  // ---------- What a pattern means ----------

  datatype Range = Range(lo: int, hi: int)

  datatype Token =
    | Star
    | Any
    | Class(negated: bool, ranges: seq<Range>)
    | Literal(b: byte)

  predicate InRanges(ranges: seq<Range>, r: int) {
    exists k :: 0 <= k < |ranges| && ranges[k].lo <= r <= ranges[k].hi
  }

  // ---------- The parser ----------

  /** Reads one possibly escaped class member; a member can never end the text. */
  function GetEsc(chunk: seq<byte>): (m: Option<(int, seq<byte>)>)
    ensures m.Some? ==> m.value.1 != [] && |m.value.1| < |chunk|
  {
    if chunk == [] || chunk[0] == DASH || chunk[0] == CLOSE then None
    else
      var c := if chunk[0] == BACKSLASH then chunk[1..] else chunk;
      var d := DecodeRune(c);
      if c == [] || BadDecode(d) || c[d.n..] == [] then None
      else Some((d.r, c[d.n..]))
  }

  /** Reads `lo` or `lo-hi`. */
  function GetRange(chunk: seq<byte>): (m: Option<(Range, seq<byte>)>)
    ensures m.Some? ==> m.value.1 != [] && |m.value.1| < |chunk|
  {
    match GetEsc(chunk)
    case None => None
    case Some((lo, c)) =>
      if c[0] == DASH then
        match GetEsc(c[1..])
        case None => None
        case Some((hi, c')) => Some((Range(lo, hi), c'))
      else Some((Range(lo, lo), c))
  }

  /** Reads the ranges of a class up to its closing bracket; `seen` are the ranges read so far. */
  function GetRanges(chunk: seq<byte>, seen: seq<Range>): (m: Option<(seq<Range>, seq<byte>)>)
    ensures m.Some? ==> |m.value.1| < |chunk|
    decreases |chunk|
  {
    if chunk != [] && chunk[0] == CLOSE && seen != [] then Some((seen, chunk[1..]))
    else
      match GetRange(chunk)
      case None => None
      case Some((range, c)) => GetRanges(c, seen + [range])
  }

  /** Reads one term of a pattern. */
  function GetTerm(p: seq<byte>): (m: Option<(Token, seq<byte>)>)
    requires p != []
    ensures m.Some? ==> |m.value.1| < |p|
  {
    if p[0] == STAR then Some((Star, p[1..]))
    else if p[0] == QUESTION then Some((Any, p[1..]))
    else if p[0] == OPEN then
      var negated := |p| > 1 && p[1] == BANG;
      match GetRanges(if negated then p[2..] else p[1..], [])
      case None => None
      case Some((ranges, rest)) => Some((Class(negated, ranges), rest))
    else if p[0] == BACKSLASH then
      if |p| == 1 then None else Some((Literal(p[1]), p[2..]))
    else Some((Literal(p[0]), p[1..]))
  }

  function Cons(token: Token, tokens: Option<seq<Token>>): Option<seq<Token>> {
    if tokens.None? then None else Some([token] + tokens.value)
  }

  function Parse(p: seq<byte>): Option<seq<Token>>
    decreases |p|
  {
    if p == [] then Some([])
    else
      match GetTerm(p)
      case None => None
      case Some((token, rest)) => Cons(token, Parse(rest))
  }

  predicate WellFormed(p: seq<byte>) {
    Parse(p).Some?
  }

  // ---------- The documented grammar ----------

  /** A character of a class member: c or '\\' c. */
  datatype Member = Plain(r: int) | Escaped(r: int)

  /** A character-range: c or lo '-' hi. */
  datatype CharRange = Single(lo: Member) | Span(lo: Member, hi: Member)

  datatype Term =
    | StarTerm
    | AnyTerm
    | ClassTerm(negated: bool, ranges: seq<CharRange>)
    | PlainTerm(b: byte)
    | EscapedTerm(b: byte)

  predicate ValidMember(m: Member) {
    IsScalar(m.r) && (m.Plain? ==> m.r != BACKSLASH && m.r != DASH && m.r != CLOSE)
  }

  predicate ValidRange(range: CharRange) {
    ValidMember(range.lo) && (range.Span? ==> ValidMember(range.hi))
  }

  predicate ValidRanges(ranges: seq<CharRange>) {
    forall k :: 0 <= k < |ranges| ==> ValidRange(ranges[k])
  }

  /** A class is not empty, and a class that is not negated cannot open with a bare '!'. */
  predicate ValidTerm(t: Term) {
    match t
    case ClassTerm(negated, ranges) =>
      && ranges != []
      && ValidRanges(ranges)
      && (negated || ranges[0].lo != Plain(BANG))
    case PlainTerm(b) => b != STAR && b != QUESTION && b != BACKSLASH && b != OPEN
    case _ => true
  }

  predicate ValidTerms(ts: seq<Term>) {
    forall k :: 0 <= k < |ts| ==> ValidTerm(ts[k])
  }

  function PrintMember(m: Member): (s: seq<byte>)
    requires ValidMember(m)
    ensures s != []
  {
    if m.Plain? then Encode(m.r) else [BACKSLASH] + Encode(m.r)
  }

  function PrintRange(range: CharRange): (s: seq<byte>)
    requires ValidRange(range)
    ensures s != []
  {
    match range
    case Single(lo) => PrintMember(lo)
    case Span(lo, hi) => PrintMember(lo) + ([DASH] + PrintMember(hi))
  }

  function PrintRanges(ranges: seq<CharRange>): (s: seq<byte>)
    requires ValidRanges(ranges)
    ensures ranges != [] ==> s != []
  {
    if ranges == [] then [] else PrintRange(ranges[0]) + PrintRanges(ranges[1..])
  }

  function PrintTerm(t: Term): (s: seq<byte>)
    requires ValidTerm(t)
    ensures s != []
  {
    match t
    case StarTerm => [STAR]
    case AnyTerm => [QUESTION]
    case ClassTerm(negated, ranges) =>
      (if negated then [OPEN, BANG] else [OPEN]) + (PrintRanges(ranges) + [CLOSE])
    case PlainTerm(b) => [b]
    case EscapedTerm(b) => [BACKSLASH, b]
  }

  function Print(ts: seq<Term>): seq<byte>
    requires ValidTerms(ts)
  {
    if ts == [] then [] else PrintTerm(ts[0]) + Print(ts[1..])
  }

  function RangeMeaning(range: CharRange): Range {
    Range(range.lo.r, if range.Single? then range.lo.r else range.hi.r)
  }

  function RangesMeaning(ranges: seq<CharRange>): seq<Range> {
    if ranges == [] then [] else [RangeMeaning(ranges[0])] + RangesMeaning(ranges[1..])
  }

  function TermMeaning(t: Term): Token {
    match t
    case StarTerm => Star
    case AnyTerm => Any
    case ClassTerm(negated, ranges) => Class(negated, RangesMeaning(ranges))
    case PlainTerm(b) => Literal(b)
    case EscapedTerm(b) => Literal(b)
  }

  function Meaning(ts: seq<Term>): seq<Token> {
    if ts == [] then [] else [TermMeaning(ts[0])] + Meaning(ts[1..])
  }

  // ---------- The parser reads back what the grammar prints ----------

  lemma FirstByte(r: int)
    requires IsScalar(r)
    ensures Encode(r)[0] < 0x80 ==> Encode(r)[0] == r
    ensures r < 0x80 ==> Encode(r) == [r]
  {
  }

  lemma GetEscPrint(m: Member, x: seq<byte>)
    requires ValidMember(m) && x != []
    ensures GetEsc(PrintMember(m) + x) == Some((m.r, x))
  {
    DecodeEncode(m.r, x);
    FirstByte(m.r);
    if m.Escaped? {
      assert (PrintMember(m) + x)[1..] == Encode(m.r) + x;
    }
  }

  lemma GetSpanPrint(lo: Member, hi: Member, x: seq<byte>)
    requires ValidMember(lo) && ValidMember(hi) && x != []
    ensures GetRange(PrintMember(lo) + ([DASH] + (PrintMember(hi) + x))) == Some((Range(lo.r, hi.r), x))
  {
    var y := [DASH] + (PrintMember(hi) + x);
    GetEscPrint(lo, y);
    assert y[1..] == PrintMember(hi) + x;
    GetEscPrint(hi, x);
  }

  lemma GetRangePrint(range: CharRange, x: seq<byte>)
    requires ValidRange(range) && x != [] && x[0] != DASH
    ensures GetRange(PrintRange(range) + x) == Some((RangeMeaning(range), x))
  {
    match range
    case Single(lo) => GetEscPrint(lo, x);
    case Span(lo, hi) =>
      assert PrintRange(range) + x == PrintMember(lo) + ([DASH] + (PrintMember(hi) + x));
      GetSpanPrint(lo, hi, x);
  }

  lemma PrintRangeHead(range: CharRange)
    requires ValidRange(range)
    ensures PrintRange(range)[0] != DASH && PrintRange(range)[0] != CLOSE
    ensures PrintRange(range)[0] == BANG ==> range.lo == Plain(BANG)
  {
    FirstByte(range.lo.r);
  }

  /** One round of the class loop on a printed member. */
  lemma GetRangesStep(range: CharRange, tail: seq<byte>, seen: seq<Range>)
    requires ValidRange(range) && tail != [] && tail[0] != DASH
    ensures GetRanges(PrintRange(range) + tail, seen) == GetRanges(tail, seen + [RangeMeaning(range)])
  {
    PrintRangeHead(range);
    GetRangePrint(range, tail);
  }

  lemma PrintRangesHead(ranges: seq<CharRange>, x: seq<byte>)
    requires ValidRanges(ranges)
    ensures PrintRanges(ranges) + ([CLOSE] + x) != [] && (PrintRanges(ranges) + ([CLOSE] + x))[0] != DASH
  {
    if ranges != [] {
      PrintRangeHead(ranges[0]);
    }
  }

  lemma AppendOne(seen: seq<Range>, range: Range, ranges: seq<Range>)
    ensures seen + [range] + ranges == seen + ([range] + ranges)
  {
  }

  lemma {:induction false} GetRangesPrint(ranges: seq<CharRange>, seen: seq<Range>, x: seq<byte>)
    requires ValidRanges(ranges)
    requires ranges != [] || seen != []
    ensures GetRanges(PrintRanges(ranges) + ([CLOSE] + x), seen)
         == Some((seen + RangesMeaning(ranges), x))
  {
    var p := PrintRanges(ranges) + ([CLOSE] + x);
    if ranges == [] {
      assert p == [CLOSE] + x;
      assert seen + [] == seen;
    } else {
      var tail := PrintRanges(ranges[1..]) + ([CLOSE] + x);
      assert p == PrintRange(ranges[0]) + tail;
      PrintRangesHead(ranges[1..], x);
      GetRangesStep(ranges[0], tail, seen);
      GetRangesPrint(ranges[1..], seen + [RangeMeaning(ranges[0])], x);
      AppendOne(seen, RangeMeaning(ranges[0]), RangesMeaning(ranges[1..]));
    }
  }

  lemma ClassText(t: Term, x: seq<byte>)
    requires ValidTerm(t) && t.ClassTerm?
    ensures var body := PrintRanges(t.ranges) + ([CLOSE] + x);
      PrintTerm(t) + x == [OPEN] + (if t.negated then [BANG] + body else body)
    ensures |PrintTerm(t)| == |PrintRanges(t.ranges)| + if t.negated then 3 else 2
  {
  }

  lemma GetClassPrint(t: Term, x: seq<byte>)
    requires ValidTerm(t) && t.ClassTerm?
    ensures GetTerm(PrintTerm(t) + x) == Some((TermMeaning(t), x))
  {
    var body := PrintRanges(t.ranges) + ([CLOSE] + x);
    var p := [OPEN] + if t.negated then [BANG] + body else body;
    ClassText(t, x);
    assert p[if t.negated then 2 else 1..] == body;
    assert body[0] == PrintRange(t.ranges[0])[0];
    PrintRangeHead(t.ranges[0]);
    GetRangesPrint(t.ranges, [], x);
    assert [] + RangesMeaning(t.ranges) == RangesMeaning(t.ranges);
  }

  /** A printed term is read back as its meaning, whatever follows it. */
  lemma GetTermPrint(t: Term, x: seq<byte>)
    requires ValidTerm(t)
    ensures GetTerm(PrintTerm(t) + x) == Some((TermMeaning(t), x))
  {
    var p := PrintTerm(t) + x;
    if t.ClassTerm? {
      GetClassPrint(t, x);
    } else {
      assert p[|PrintTerm(t)|..] == x;
    }
  }

  // ---------- The grammar prints everything the parser reads ----------

  lemma UnparseEsc(p: seq<byte>) returns (m: Member)
    requires GetEsc(p).Some?
    ensures ValidMember(m) && m.r == GetEsc(p).value.0
    ensures p == PrintMember(m) + GetEsc(p).value.1
  {
    var c := if p[0] == BACKSLASH then p[1..] else p;
    EncodeDecode(c);
    var r := DecodeRune(c).r;
    FirstByte(r);
    m := if p[0] == BACKSLASH then Escaped(r) else Plain(r);
    assert c == Encode(r) + GetEsc(p).value.1;
  }

  lemma SpanText(lo: Member, hi: Member, x: seq<byte>)
    requires ValidMember(lo) && ValidMember(hi)
    ensures PrintRange(Span(lo, hi)) + x == PrintMember(lo) + ([DASH] + (PrintMember(hi) + x))
  {
  }

  lemma UnparseRange(p: seq<byte>) returns (range: CharRange)
    requires GetRange(p).Some?
    ensures ValidRange(range) && RangeMeaning(range) == GetRange(p).value.0
    ensures p == PrintRange(range) + GetRange(p).value.1
  {
    var lo := UnparseEsc(p);
    var c := GetEsc(p).value.1;
    if c[0] == DASH {
      var hi := UnparseEsc(c[1..]);
      range := Span(lo, hi);
      SpanText(lo, hi, GetRange(p).value.1);
      assert c == [DASH] + c[1..];
    } else {
      range := Single(lo);
    }
  }

  lemma ConsRange(first: CharRange, rest: seq<CharRange>, seen: seq<Range>, x: seq<byte>)
    requires ValidRange(first) && ValidRanges(rest)
    ensures ValidRanges([first] + rest)
    ensures PrintRanges([first] + rest) + x == PrintRange(first) + (PrintRanges(rest) + x)
    ensures seen + RangesMeaning([first] + rest) == seen + [RangeMeaning(first)] + RangesMeaning(rest)
  {
    assert ([first] + rest)[1..] == rest;
  }

  lemma {:induction false} UnparseRanges(p: seq<byte>, seen: seq<Range>) returns (ranges: seq<CharRange>)
    requires GetRanges(p, seen).Some?
    ensures ValidRanges(ranges)
    ensures ranges != [] || seen != []
    ensures GetRanges(p, seen).value.0 == seen + RangesMeaning(ranges)
    ensures p == PrintRanges(ranges) + ([CLOSE] + GetRanges(p, seen).value.1)
    decreases |p|
  {
    if p != [] && p[0] == CLOSE && seen != [] {
      ranges := [];
      assert seen + [] == seen;
    } else {
      var first := UnparseRange(p);
      var (range, c) := GetRange(p).value;
      var rest := UnparseRanges(c, seen + [range]);
      ranges := [first] + rest;
      ConsRange(first, rest, seen, [CLOSE] + GetRanges(p, seen).value.1);
    }
  }

  lemma BangFirst(ranges: seq<CharRange>, body: seq<byte>)
    requires ranges != [] && ValidRanges(ranges) && PrintRanges(ranges) <= body
    ensures ranges[0].lo == Plain(BANG) ==> body[0] == BANG
  {
    FirstByte(BANG);
    assert body[0] == PrintRanges(ranges)[0] == PrintRange(ranges[0])[0];
  }

  lemma UnparseSet(body: seq<byte>) returns (ranges: seq<CharRange>)
    requires GetRanges(body, []).Some?
    ensures ValidRanges(ranges) && ranges != []
    ensures GetRanges(body, []).value.0 == RangesMeaning(ranges)
    ensures body == PrintRanges(ranges) + ([CLOSE] + GetRanges(body, []).value.1)
    ensures ranges[0].lo == Plain(BANG) ==> body[0] == BANG
  {
    ranges := UnparseRanges(body, []);
    assert [] + RangesMeaning(ranges) == RangesMeaning(ranges);
    BangFirst(ranges, body);
  }

  /** The text of a class after its opening bracket and negation. */
  lemma ClassBody(p: seq<byte>) returns (negated: bool, body: seq<byte>)
    requires p != [] && p[0] == OPEN
    ensures p == [OPEN] + if negated then [BANG] + body else body
    ensures negated || body == [] || body[0] != BANG
    ensures GetTerm(p) == match GetRanges(body, [])
      case None => None
      case Some((ranges, rest)) => Some((Class(negated, ranges), rest))
  {
    negated := |p| > 1 && p[1] == BANG;
    body := if negated then p[2..] else p[1..];
  }

  lemma UnparseClass(p: seq<byte>) returns (t: Term)
    requires p != [] && p[0] == OPEN && GetTerm(p).Some?
    ensures ValidTerm(t) && TermMeaning(t) == GetTerm(p).value.0
    ensures p == PrintTerm(t) + GetTerm(p).value.1
  {
    var negated, body := ClassBody(p);
    var ranges := UnparseSet(body);
    t := ClassTerm(negated, ranges);
    ClassText(t, GetTerm(p).value.1);
  }

  lemma UnparseTerm(p: seq<byte>) returns (t: Term)
    requires p != [] && GetTerm(p).Some?
    ensures ValidTerm(t) && TermMeaning(t) == GetTerm(p).value.0
    ensures p == PrintTerm(t) + GetTerm(p).value.1
  {
    if p[0] == OPEN {
      t := UnparseClass(p);
    } else if p[0] == STAR {
      t := StarTerm;
    } else if p[0] == QUESTION {
      t := AnyTerm;
    } else if p[0] == BACKSLASH {
      t := EscapedTerm(p[1]);
    } else {
      t := PlainTerm(p[0]);
    }
  }

  // ---------- Whole patterns ----------

  /** Every pattern the grammar generates parses to its meaning. */
  lemma {:induction false} ParsePrint(ts: seq<Term>)
    requires ValidTerms(ts)
    ensures Parse(Print(ts)) == Some(Meaning(ts))
  {
    if ts != [] {
      GetTermPrint(ts[0], Print(ts[1..]));
      ParsePrint(ts[1..]);
      assert Meaning(ts) == [TermMeaning(ts[0])] + Meaning(ts[1..]);
    }
  }

  /** Every pattern that parses is generated by the grammar, with the same meaning. */
  lemma {:induction false} Unparse(p: seq<byte>) returns (ts: seq<Term>)
    requires WellFormed(p)
    ensures ValidTerms(ts) && Print(ts) == p && Parse(p) == Some(Meaning(ts))
    decreases |p|
  {
    if p == [] {
      ts := [];
    } else {
      var t := UnparseTerm(p);
      var (token, rest) := GetTerm(p).value;
      var more := Unparse(rest);
      ts := [t] + more;
      assert ts[1..] == more;
      assert Meaning(ts) == [token] + Meaning(more);
    }
  }

  /** The patterns accepted are exactly those of the documented grammar. */
  lemma WellFormedIsGrammatical(p: seq<byte>)
    ensures WellFormed(p) <==> exists ts :: ValidTerms(ts) && Print(ts) == p
  {
    if WellFormed(p) {
      var ts := Unparse(p);
    }
    forall ts | ValidTerms(ts) && Print(ts) == p
      ensures WellFormed(p)
    {
      ParsePrint(ts);
    }
  }
}
