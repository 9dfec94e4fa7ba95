/** The main results about fnMatch: when its verdict is the declarative one, and the proof that
    the condition on names cannot be weakened. */
module GlobExact {
  import opened Options
  import opened Utf8
  import opened GlobPattern
  import opened GlobMatch
  import opened GlobScan
  import opened GlobTheorems

  predicate Ascii(name: seq<byte>) {
    forall i :: 0 <= i < |name| ==> name[i] < 0x80
  }

  lemma AsciiIsNarrow(name: seq<byte>)
    requires Ascii(name)
    ensures Narrow(name)
  {
    forall i | 0 <= i < |name| ensures DecodeRune(name[i..]).n <= 2 {
      assert name[i..][0] == name[i];
    }
  }

  /** fnMatch answers true exactly when the pattern is well formed and the declarative matcher
      accepts the whole name; a well-formed pattern is never an error. */
  lemma FnMatchExact(pattern: seq<byte>, name: seq<byte>)
    requires Narrow(name) || (WellFormed(pattern) ==> LiteralBetweenStars(Parse(pattern).value))
    ensures Run(pattern, name) == Matched <==> Accepts(pattern, name)
    ensures WellFormed(pattern) ==> Run(pattern, name) == if Accepts(pattern, name) then Matched else Unmatched
  {
    if Run(pattern, name) == Matched {
      RunSound(pattern, name);
    }
    if Accepts(pattern, name) {
      RunComplete(pattern, name);
    }
    if Run(pattern, name) == BadPattern {
      ErrorsAreMalformed(pattern, name);
    }
  }

  // ---------- Names on which first fit overshoots ----------

  /** Patterns without meta characters: every byte escaped. */
  function Quote(bytes: seq<byte>): (ts: seq<Term>)
    ensures |ts| == |bytes|
    ensures forall k :: 0 <= k < |ts| ==> ts[k] == EscapedTerm(bytes[k])
    ensures ValidTerms(ts)
  {
    if bytes == [] then [] else [EscapedTerm(bytes[0])] + Quote(bytes[1..])
  }

  predicate Starless(ts: seq<Term>) {
    ValidTerms(ts) && forall k :: 0 <= k < |ts| ==> ts[k] != StarTerm
  }

  lemma AppendAssoc(x: seq<byte>, y: seq<byte>, z: seq<byte>)
    ensures x + (y + z) == x + y + z
  {
  }

  lemma {:induction false} ScanStarless(ts: seq<Term>, x: seq<byte>)
    requires Starless(ts) && (x != [] ==> x[0] == STAR)
    ensures ScanLen(Print(ts) + x, false) == |Print(ts)|
  {
    if ts == [] {
      assert Print(ts) + x == x;
    } else {
      AppendAssoc(PrintTerm(ts[0]), Print(ts[1..]), x);
      ScanTerm(ts[0], Print(ts[1..]) + x);
      ScanStarless(ts[1..], x);
    }
  }

  lemma {:induction false} MeaningAt(ts: seq<Term>, k: nat)
    requires k < |ts|
    ensures |Meaning(ts)| == |ts| && Meaning(ts)[k] == TermMeaning(ts[k])
  {
    if |ts| > 1 {
      MeaningAt(ts[1..], if k > 0 then k - 1 else 0);
    }
  }

  lemma StarlessMeaning(ts: seq<Term>)
    requires Starless(ts)
    ensures |Meaning(ts)| == |ts| && NoStar(Meaning(ts))
    ensures Parse(Print(ts)) == Some(Meaning(ts))
  {
    ParsePrint(ts);
    forall k | 0 <= k < |ts| ensures |Meaning(ts)| == |ts| && Meaning(ts)[k] != Star {
      MeaningAt(ts, k);
    }
  }

  lemma PrintHead(ts: seq<Term>)
    requires Starless(ts) && ts != []
    ensures Print(ts) != [] && Print(ts)[0] != STAR
  {
    assert Print(ts)[0] == PrintTerm(ts[0])[0];
  }

  lemma ScanCut(p: seq<byte>, chunk: seq<byte>, rest: seq<byte>)
    requires p[Stars(p)..] == chunk + rest && ScanLen(chunk + rest, false) == |chunk|
    ensures ScanOf(p) == Scan(Stars(p) > 0, chunk, rest)
  {
    assert (chunk + rest)[..|chunk|] == chunk && (chunk + rest)[|chunk|..] == rest;
  }

  /** scanChunk on a printed pattern without a leading star, and with one. */
  lemma ScanPrinted(ts: seq<Term>, x: seq<byte>)
    requires Starless(ts) && ts != [] && (x != [] ==> x[0] == STAR)
    ensures ScanOf(Print(ts) + x) == Scan(false, Print(ts), x)
  {
    var q := Print(ts) + x;
    PrintHead(ts);
    assert q[0] == Print(ts)[0] && q[0..] == q;
    ScanStarless(ts, x);
    ScanCut(q, Print(ts), x);
  }

  lemma ScanPrintedStar(ts: seq<Term>, x: seq<byte>)
    requires Starless(ts) && ts != [] && (x != [] ==> x[0] == STAR)
    ensures ScanOf([STAR] + (Print(ts) + x)) == Scan(true, Print(ts), x)
  {
    var q := Print(ts) + x;
    PrintHead(ts);
    assert q[0] == Print(ts)[0] && ([STAR] + q)[1..] == q;
    ScanStarless(ts, x);
    ScanCut([STAR] + q, Print(ts), x);
  }

  lemma {:induction false} FitLength(tokens: seq<Token>, s: seq<byte>)
    ensures FitTokens(tokens, s).Some? ==> |FitTokens(tokens, s).value| + |tokens| <= |s|
    decreases |tokens|
  {
    if FitTokens(tokens, s).Some? && tokens != [] {
      FitLength(tokens[1..], s[Width(tokens[0], s)..]);
    }
  }

  lemma {:induction false} QuoteFits(bytes: seq<byte>, s: seq<byte>)
    ensures FitTokens(Meaning(Quote(bytes)), bytes + s) == Some(s)
  {
    if bytes == [] {
      assert bytes + s == s;
    } else {
      assert Quote(bytes)[1..] == Quote(bytes[1..]);
      assert (bytes + s)[1..] == bytes[1..] + s;
      QuoteFits(bytes[1..], s);
    }
  }

  /** More tokens than bytes: fnMatch gives up on a last chunk that is too long. */
  lemma TooLong(ts: seq<Term>, s: seq<byte>)
    requires Starless(ts) && |ts| > |s|
    ensures Run([STAR] + Print(ts), s) == Unmatched
  {
    StarlessMeaning(ts);
    ScanPrintedStar(ts, []);
    assert Print(ts) + [] == Print(ts);
    var chunk := Print(ts);
    PlaceClean(chunk, s, true, true);
    if Place(chunk, s, true, true).Fits? {
      var i := PlaceFirst(chunk, s, true, true);
      FitChunkTokens(chunk, s[i..]);
      FitLength(Meaning(ts), s[i..]);
    }
  }

  /** The tail of the witness: first fit hands the whole rune to the first '?'. */
  function Tail(after: seq<byte>): seq<byte> {
    [STAR] + (Print([AnyTerm]) + ([STAR] + Print([AnyTerm] + Quote(after))))
  }

  lemma AnyFits(s: seq<byte>)
    requires s != []
    ensures FitChunk(Print([AnyTerm]), s) == Fits(s[DecodeRune(s).n..])
  {
    StarlessMeaning([AnyTerm]);
    assert Meaning([AnyTerm]) == [Any];
    FitChunkTokens(Print([AnyTerm]), s);
  }

  /** The first chunk takes the whole rune, and what is left is too short for the rest. */
  lemma TailOvershoots(s: seq<byte>)
    requires s != []
    ensures Run(Tail(s[DecodeRune(s).n..]), s) == Unmatched
  {
    var after := s[DecodeRune(s).n..];
    ScanPrintedStar([AnyTerm], [STAR] + Print([AnyTerm] + Quote(after)));
    AnyFits(s);
    TooLong([AnyTerm] + Quote(after), after);
  }

  lemma QuotedPrefix(name: seq<byte>, p: nat, x: seq<byte>)
    requires p <= |name| && x != [] && x[0] == STAR
    ensures Run(Print(Quote(name[..p])) + x, name) == Run(x, name[p..])
  {
    var before, ts := name[..p], Quote(name[..p]);
    assert name == before + name[p..];
    if p == 0 {
      assert Print(ts) + x == x && name[p..] == name;
    } else {
      ScanPrinted(ts, x);
      StarlessMeaning(ts);
      FitChunkTokens(Print(ts), name);
      QuoteFits(before, name[p..]);
    }
  }

  /** The witness pattern for a name whose bytes `p..` decode to a long rune. */
  function Witness(name: seq<byte>, p: nat): seq<byte>
    requires p < |name|
  {
    var s := name[p..];
    Print(Quote(name[..p])) + Tail(s[DecodeRune(s).n..])
  }

  lemma PrintCons(ts: seq<Term>, t: Term, rest: seq<Term>)
    requires ValidTerms(ts) && ts == [t] + rest
    ensures ValidTerm(t) && ValidTerms(rest) && Print(ts) == PrintTerm(t) + Print(rest)
  {
    assert ts[1..] == rest && ts[0] == t;
  }

  lemma ValidConcat(a: seq<Term>, b: seq<Term>)
    requires ValidTerms(a) && ValidTerms(b)
    ensures ValidTerms(a + b)
  {
  }

  lemma {:induction false} PrintQuoted(bytes: seq<byte>, ts: seq<Term>)
    requires ValidTerms(ts) && ValidTerms(Quote(bytes) + ts)
    ensures Print(Quote(bytes) + ts) == Print(Quote(bytes)) + Print(ts)
  {
    if bytes == [] {
      assert Quote(bytes) + ts == ts;
    } else {
      var t, rest := EscapedTerm(bytes[0]), Quote(bytes[1..]);
      assert Quote(bytes) + ts == [t] + (rest + ts);
      PrintCons(Quote(bytes), t, rest);
      PrintCons(Quote(bytes) + ts, t, rest + ts);
      PrintQuoted(bytes[1..], ts);
      AppendAssoc(PrintTerm(t), Print(rest), Print(ts));
    }
  }

  lemma {:induction false} MeaningConcat(a: seq<Term>, b: seq<Term>)
    ensures Meaning(a + b) == Meaning(a) + Meaning(b)
  {
    if a == [] {
      assert a + b == b;
    } else {
      assert (a + b)[1..] == a[1..] + b;
      MeaningConcat(a[1..], b);
    }
  }

  lemma AnyStep(tokens: seq<Token>, s: seq<byte>)
    requires s != [] && Matches(tokens, s[DecodeRune(s).n..])
    ensures Matches([Any] + tokens, s)
  {
    assert ([Any] + tokens)[1..] == tokens;
  }

  lemma StarStep(tokens: seq<Token>, s: seq<byte>, k: nat)
    requires k <= |s| && Matches(tokens, s[k..])
    ensures Matches([Star] + tokens, s)
  {
    assert ([Star] + tokens)[1..] == tokens;
  }

  lemma QuoteMatches(bytes: seq<byte>)
    ensures Matches(Meaning(Quote(bytes)), bytes)
  {
    var lits := Meaning(Quote(bytes));
    StarlessMeaning(Quote(bytes));
    QuoteFits(bytes, []);
    assert bytes + [] == bytes && lits + [] == lits;
    MatchesChunk(lits, [], bytes);
  }

  /** The declarative matcher accepts the tail: two stray bytes of the rune for the two '?'. */
  lemma TailMatches(s: seq<byte>)
    requires s != [] && DecodeRune(s).n >= 3
    ensures Matches([Star] + ([Any] + ([Star] + ([Any] + Meaning(Quote(s[DecodeRune(s).n..]))))), s)
  {
    var w := DecodeRune(s).n;
    var lits := Meaning(Quote(s[w..]));
    var s1, s2 := s[w - 1..], s[w - 2..];
    InsideRune(s, w - 2);
    InsideRune(s, w - 1);
    QuoteMatches(s[w..]);
    assert s1[1..] == s[w..] && s2[1..] == s1 && s1[0..] == s1;
    AnyStep(lits, s1);
    StarStep([Any] + lits, s1, 0);
    AnyStep([Star] + ([Any] + lits), s2);
    StarStep([Any] + ([Star] + ([Any] + lits)), s, w - 2);
  }

  /** The witness as syntax trees. */
  function TailTerms(after: seq<byte>): seq<Term> {
    [StarTerm] + ([AnyTerm] + ([StarTerm] + ([AnyTerm] + Quote(after))))
  }

  lemma TailText(after: seq<byte>)
    ensures ValidTerms(TailTerms(after)) && Print(TailTerms(after)) == Tail(after)
    ensures Meaning(TailTerms(after)) == [Star] + ([Any] + ([Star] + ([Any] + Meaning(Quote(after)))))
  {
    var last := [AnyTerm] + Quote(after);
    PrintCons(TailTerms(after), StarTerm, [AnyTerm] + ([StarTerm] + last));
    PrintCons([AnyTerm] + ([StarTerm] + last), AnyTerm, [StarTerm] + last);
    PrintCons([StarTerm] + last, StarTerm, last);
    assert Print([StarTerm]) == [STAR];
    MeaningConcat([AnyTerm], Quote(after));
    MeaningConcat([StarTerm], last);
    MeaningConcat([AnyTerm], [StarTerm] + last);
    MeaningConcat([StarTerm], [AnyTerm] + ([StarTerm] + last));
    assert Meaning([StarTerm]) == [Star] && Meaning([AnyTerm]) == [Any];
  }

  /** The declarative matcher accepts the witness pattern ... */
  lemma WitnessAccepts(name: seq<byte>, p: nat)
    requires p < |name| && DecodeRune(name[p..]).n >= 3
    ensures Accepts(Witness(name, p), name)
  {
    var s := name[p..];
    var front, tail := Quote(name[..p]), TailTerms(s[DecodeRune(s).n..]);
    TailText(s[DecodeRune(s).n..]);
    ValidConcat(front, tail);
    PrintQuoted(name[..p], tail);
    MeaningConcat(front, tail);
    ParsePrint(front + tail);
    TailMatches(s);
    StarlessMeaning(front);
    QuoteFits(name[..p], s);
    assert name[..p] + s == name;
    MatchesChunk(Meaning(front), Meaning(tail), name);
  }

  /** ... and fnMatch misses the match. */
  lemma WitnessMisses(name: seq<byte>, p: nat)
    requires p < |name|
    ensures Run(Witness(name, p), name) == Unmatched
  {
    TailOvershoots(name[p..]);
    QuotedPrefix(name, p, Tail(name[p..][DecodeRune(name[p..]).n..]));
  }

  /** The exact condition on names: fnMatch agrees with the declarative matcher on every pattern
      if and only if the name holds no code point from U+0800 on. */
  lemma ExactOnNarrowNamesOnly(name: seq<byte>)
    ensures Narrow(name) <==> forall pattern :: Run(pattern, name) == Matched <==> Accepts(pattern, name)
  {
    if Narrow(name) {
      forall pattern ensures Run(pattern, name) == Matched <==> Accepts(pattern, name) {
        FnMatchExact(pattern, name);
      }
    } else {
      var p :| 0 <= p < |name| && DecodeRune(name[p..]).n >= 3;
      WitnessAccepts(name, p);
      WitnessMisses(name, p);
    }
  }
}
