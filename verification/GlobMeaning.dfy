/** What a pattern of common/blacklist/match.go means, said without its parser and its matcher: which
    bytes each term of the documented grammar takes, and on which names a malformed pattern errs. */
module GlobMeaning {
  import opened Options
  import opened Utf8
  import opened GlobPattern
  import opened GlobMatch
  import opened GlobScan
  import opened GlobTheorems
  import opened GlobExact

  // ---------- What the terms take ----------

  ghost predicate Inside(ranges: seq<CharRange>, r: int) {
    exists k :: 0 <= k < |ranges|
      && ranges[k].lo.r <= r <= if ranges[k].Single? then ranges[k].lo.r else ranges[k].hi.r
  }

  /** The term takes the first `n` bytes of `s`. */
  ghost predicate TermTakes(t: Term, s: seq<byte>, n: nat) {
    match t
    case StarTerm => n <= |s|
    case AnyTerm => s != [] && n == DecodeRune(s).n
    case ClassTerm(negated, ranges) => s != [] && n == DecodeRune(s).n && Inside(ranges, DecodeRune(s).r) != negated
    case PlainTerm(b) => s != [] && n == 1 && s[0] == b
    case EscapedTerm(b) => s != [] && n == 1 && s[0] == b
  }

  /** The terms take the first `n` bytes of `s`, one after the other. */
  ghost predicate Takes(ts: seq<Term>, s: seq<byte>, n: nat)
    decreases |ts|
  {
    if ts == [] then n == 0
    else exists i :: 0 <= i <= n <= |s| && TermTakes(ts[0], s, i) && Takes(ts[1..], s[i..], n - i)
  }

  lemma {:induction false} RangesMeaningAt(ranges: seq<CharRange>, k: nat)
    requires k < |ranges|
    ensures |RangesMeaning(ranges)| == |ranges| && RangesMeaning(ranges)[k] == RangeMeaning(ranges[k])
  {
    if |ranges| > 1 {
      RangesMeaningAt(ranges[1..], if k > 0 then k - 1 else 0);
    }
  }

  lemma InsideMeaning(ranges: seq<CharRange>, r: int)
    ensures Inside(ranges, r) <==> InRanges(RangesMeaning(ranges), r)
  {
    var rs := RangesMeaning(ranges);
    forall k | 0 <= k < |ranges| ensures |rs| == |ranges| && rs[k] == RangeMeaning(ranges[k]) {
      RangesMeaningAt(ranges, k);
    }
    if InRanges(rs, r) {
      var k :| 0 <= k < |rs| && rs[k].lo <= r <= rs[k].hi;
      assert ranges[k].lo.r <= r <= if ranges[k].Single? then ranges[k].lo.r else ranges[k].hi.r;
    }
    if Inside(ranges, r) {
      var k :| 0 <= k < |ranges| && ranges[k].lo.r <= r <= if ranges[k].Single? then ranges[k].lo.r else ranges[k].hi.r;
      assert rs[k].lo <= r <= rs[k].hi;
    }
  }

  lemma TermTakesToken(t: Term, s: seq<byte>, n: nat)
    requires t != StarTerm
    ensures TermTakes(t, s, n) <==> s != [] && TokenFits(TermMeaning(t), s) && n == Width(TermMeaning(t), s)
  {
    if t.ClassTerm? {
      InsideMeaning(t.ranges, DecodeRune(s).r);
    }
  }

  lemma StarTakes(s: seq<byte>, n: nat)
    ensures TermTakes(StarTerm, s, n) <==> n <= |s|
  {
  }

  lemma MeaningCons(ts: seq<Term>, more: seq<Token>)
    requires ts != []
    ensures Meaning(ts) + more == [TermMeaning(ts[0])] + (Meaning(ts[1..]) + more)
    ensures (Meaning(ts) + more)[1..] == Meaning(ts[1..]) + more && (Meaning(ts) + more)[0] == TermMeaning(ts[0])
  {
    assert Meaning(ts) + more == [TermMeaning(ts[0])] + (Meaning(ts[1..]) + more);
  }

  lemma NoTerms(more: seq<Token>)
    ensures Meaning([]) + more == more
  {
  }

  lemma SliceSlice(s: seq<byte>, i: nat, k: nat)
    requires i <= k <= |s|
    ensures s[i..][k - i..] == s[k..]
  {
  }

  lemma {:induction false} MatchesToTakes(ts: seq<Term>, more: seq<Token>, s: seq<byte>) returns (n: nat)
    requires Matches(Meaning(ts) + more, s)
    ensures n <= |s| && Takes(ts, s, n) && Matches(more, s[n..])
    decreases |ts|
  {
    hide Meaning, TokenFits, Width, DecodeRune, TermTakes;
    if ts == [] {
      n := 0;
      NoTerms(more);
      assert s[0..] == s;
    } else {
      MeaningCons(ts, more);
      var i: nat;
      if ts[0] == StarTerm {
        i :| 0 <= i <= |s| && Matches(Meaning(ts[1..]) + more, s[i..]);
        StarTakes(s, i);
      } else {
        i := Width(TermMeaning(ts[0]), s);
        TermTakesToken(ts[0], s, i);
      }
      var k := MatchesToTakes(ts[1..], more, s[i..]);
      n := i + k;
      SliceSlice(s, i, n);
      assert TermTakes(ts[0], s, i) && Takes(ts[1..], s[i..], n - i);
    }
  }

  lemma {:induction false} TakesToMatches(ts: seq<Term>, more: seq<Token>, s: seq<byte>, n: nat)
    requires n <= |s| && Takes(ts, s, n) && Matches(more, s[n..])
    ensures Matches(Meaning(ts) + more, s)
    decreases |ts|
  {
    if ts == [] {
      assert Meaning(ts) + more == more && s[0..] == s;
    } else {
      hide Meaning, TokenFits, Width, DecodeRune, TermTakes;
      MeaningCons(ts, more);
      var i: nat :| 0 <= i <= n <= |s| && TermTakes(ts[0], s, i) && Takes(ts[1..], s[i..], n - i);
      SliceSlice(s, i, n);
      TakesToMatches(ts[1..], more, s[i..], n - i);
      if ts[0] != StarTerm {
        TermTakesToken(ts[0], s, i);
      }
    }
  }

  /** The declarative matcher on tokens says what the terms take. */
  lemma MatchesIsTakes(ts: seq<Term>, s: seq<byte>)
    ensures Matches(Meaning(ts), s) <==> Takes(ts, s, |s|)
  {
    assert Meaning(ts) + [] == Meaning(ts);
    if Matches(Meaning(ts), s) {
      var n := MatchesToTakes(ts, [], s);
    }
    if Takes(ts, s, |s|) {
      TakesToMatches(ts, [], s, |s|);
    }
  }

  lemma NoStarIsExact(tokens: seq<Token>)
    requires NoStar(tokens)
    ensures LiteralBetweenStars(tokens) && LiteralBetweenStars(tokens + [Any, Star])
  {
  }

  /** A well-formed pattern matches a name exactly if its terms take all of it. */
  lemma VerdictMeaning(ts: seq<Term>, name: seq<byte>)
    requires ValidTerms(ts)
    requires Narrow(name) || LiteralBetweenStars(Meaning(ts))
    ensures Run(Print(ts), name) == if Takes(ts, name, |name|) then Matched else Unmatched
  {
    ParsePrint(ts);
    FnMatchExact(Print(ts), name);
    MatchesIsTakes(ts, name);
  }

  /** For every name, narrow or not, a match means that the terms take all of it. */
  lemma MatchedMeans(ts: seq<Term>, name: seq<byte>)
    requires ValidTerms(ts) && Run(Print(ts), name) == Matched
    ensures Takes(ts, name, |name|)
  {
    ParsePrint(ts);
    RunSound(Print(ts), name);
    MatchesIsTakes(ts, name);
  }

  // ---------- One term, byte by byte ----------

  lemma TakesOne(t: Term, s: seq<byte>)
    ensures Takes([t], s, |s|) <==> TermTakes(t, s, |s|)
  {
    assert [t][1..] == [];
    if TermTakes(t, s, |s|) {
      assert Takes([t][1..], s[|s|..], |s| - |s|);
    }
  }

  lemma OneTerm(t: Term, name: seq<byte>)
    requires ValidTerm(t)
    ensures Run(PrintTerm(t), name) == if TermTakes(t, name, |name|) then Matched else Unmatched
  {
    var ts := [t];
    PrintCons(ts, t, []);
    assert PrintTerm(t) + Print([]) == PrintTerm(t);
    assert Meaning(ts) == [TermMeaning(t)];
    assert |Meaning(ts)| == 1;
    VerdictMeaning(ts, name);
    TakesOne(t, name);
  }

  lemma BytesTaken(b: byte, name: seq<byte>)
    ensures TermTakes(PlainTerm(b), name, |name|) <==> name == [b]
    ensures TermTakes(EscapedTerm(b), name, |name|) <==> name == [b]
  {
    if name != [] && |name| == 1 && name[0] == b {
      assert name == [b];
    }
  }

  /** A star, 42, matches every name. */
  lemma StarAlone(name: seq<byte>)
    ensures Run([42], name) == Matched
  {
    OneTerm(StarTerm, name);
  }

  /** A question mark, 63, matches every name of one rune. */
  lemma AnyAlone(name: seq<byte>)
    ensures Run([63], name) == if name != [] && DecodeRune(name).n == |name| then Matched else Unmatched
  {
    hide Run, DecodeRune;
    OneTerm(AnyTerm, name);
  }

  /** A byte after 92 matches itself, and so does any byte but 42, 63, 91 and 92. */
  lemma ByteAlone(b: byte, name: seq<byte>)
    ensures Run([92, b], name) == if name == [b] then Matched else Unmatched
    ensures b != 42 && b != 63 && b != 91 && b != 92 ==> Run([b], name) == if name == [b] then Matched else Unmatched
  {
    BytesTaken(b, name);
    hide Run, DecodeRune, TermTakes;
    OneTerm(EscapedTerm(b), name);
    if b != 42 && b != 63 && b != 91 && b != 92 {
      OneTerm(PlainTerm(b), name);
    }
  }

  /** The text of a member: 92 escapes it. */
  function Spelled(m: Member): seq<byte>
    requires IsScalar(m.r)
  {
    (if m.Escaped? then [92] else []) + Encode(m.r)
  }

  /** The text of the ranges: 45 stands between the ends of a range. */
  function SpelledRanges(ranges: seq<CharRange>): seq<byte>
    requires ValidRanges(ranges)
  {
    if ranges == [] then []
    else
      var more := SpelledRanges(ranges[1..]);
      match ranges[0]
      case Single(lo) => Spelled(lo) + more
      case Span(lo, hi) => Spelled(lo) + [45] + Spelled(hi) + more
  }

  lemma SpelledMember(m: Member)
    requires ValidMember(m)
    ensures PrintMember(m) == Spelled(m)
  {
    assert [] + Encode(m.r) == Encode(m.r);
  }

  lemma {:induction false} SpelledText(ranges: seq<CharRange>)
    requires ValidRanges(ranges)
    ensures PrintRanges(ranges) == SpelledRanges(ranges)
  {
    hide PrintMember, Spelled;
    if ranges != [] {
      SpelledText(ranges[1..]);
      SpelledMember(ranges[0].lo);
      if ranges[0].Span? {
        SpelledMember(ranges[0].hi);
        var a, b, more := Spelled(ranges[0].lo), Spelled(ranges[0].hi), SpelledRanges(ranges[1..]);
        GlobExact.AppendAssoc(a, [45], b);
        assert PrintRanges(ranges) == a + ([45] + b) + more;
      }
    }
  }

  lemma SpelledClass(negated: bool, ranges: seq<CharRange>)
    requires ValidTerm(ClassTerm(negated, ranges))
    ensures PrintTerm(ClassTerm(negated, ranges)) == [91] + (if negated then [33] else []) + SpelledRanges(ranges) + [93]
  {
    hide SpelledRanges, PrintRanges;
    SpelledText(ranges);
    var body := SpelledRanges(ranges);
    if negated {
      assert [91, 33] + (body + [93]) == [91] + [33] + body + [93];
    } else {
      assert [91] + (body + [93]) == [91] + [] + body + [93];
    }
  }

  /** A class, 91 to 93 with 33 after the bracket if negated, matches a name of one rune that lies in
      one of its ranges or, if negated, in none. Its first member is not a bare 33 unless negated. */
  lemma ClassTerms(negated: bool, ranges: seq<CharRange>, name: seq<byte>)
    requires ranges != [] && ValidRanges(ranges) && (negated || ranges[0].lo != Plain(33))
    ensures Run([91] + (if negated then [33] else []) + SpelledRanges(ranges) + [93], name) ==
      if name != [] && DecodeRune(name).n == |name|
        && (exists k :: 0 <= k < |ranges| && ranges[k].lo.r <= DecodeRune(name).r
              <= (if ranges[k].Single? then ranges[k].lo.r else ranges[k].hi.r)) != negated
      then Matched else Unmatched
  {
    var t := ClassTerm(negated, ranges);
    hide Run, DecodeRune, SpelledRanges, PrintTerm;
    SpelledClass(negated, ranges);
    OneTerm(t, name);
  }

  /** Every scalar value against every class. */
  lemma ClassOfRune(negated: bool, ranges: seq<CharRange>, r: int)
    requires ValidTerm(ClassTerm(negated, ranges)) && (0 <= r <= 0xD7FF || 0xE000 <= r <= 0x10FFFF)
    ensures Run(Print([ClassTerm(negated, ranges)]), Bits(r)) == Matched <==>
      ((exists k :: 0 <= k < |ranges|
         && ranges[k].lo.r <= r <= (if ranges[k].Single? then ranges[k].lo.r else ranges[k].hi.r)) != negated)
  {
    hide Run, DecodeRune;
    var t := ClassTerm(negated, ranges);
    EncodeIsBits(r);
    DecodeMeaning(Bits(r), r);
    PrintCons([t], t, []);
    assert PrintTerm(t) + Print([]) == PrintTerm(t);
    OneTerm(t, Bits(r));
  }
}
