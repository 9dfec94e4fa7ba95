/** When fnMatch of common/blacklist/match.go returns ErrBadPattern: exactly if what stands before the
    first malformed term matches a proper prefix of the name. */
module GlobErrors {
  import opened Options
  import opened Utf8
  import opened GlobPattern
  import opened GlobMatch
  import opened GlobScan
  import opened GlobTheorems
  import opened GlobExact
  import opened GlobMeaning

  // ---------- Malformed text ----------

  /** The term stands at the front of `q`. */
  predicate BeginsWith(q: seq<byte>, t: Term) {
    ValidTerm(t) && PrintTerm(t) <= q
  }

  /** No term of the grammar stands at the front of `q`. */
  ghost predicate Broken(q: seq<byte>) {
    q != [] && forall t :: !BeginsWith(q, t)
  }

  lemma BrokenIsUnparsed(q: seq<byte>)
    requires q != []
    ensures Broken(q) <==> GetTerm(q).None?
  {
    if GetTerm(q).Some? {
      var t := UnparseTerm(q);
      assert BeginsWith(q, t);
    }
    forall t | BeginsWith(q, t) ensures GetTerm(q).Some? {
      GetTermPrint(t, q[|PrintTerm(t)|..]);
      assert q == PrintTerm(t) + q[|PrintTerm(t)|..];
    }
  }

  lemma EscCloses(chunk: seq<byte>)
    requires GetEsc(chunk).Some? && CLOSE in GetEsc(chunk).value.1
    ensures CLOSE in chunk
  {
    var c := if chunk[0] == BACKSLASH then chunk[1..] else chunk;
    var rest := GetEsc(chunk).value.1;
    assert rest == c[DecodeRune(c).n..];
    var k :| 0 <= k < |rest| && rest[k] == CLOSE;
    assert c[DecodeRune(c).n + k] == CLOSE;
    assert CLOSE in c;
  }

  lemma RangeCloses(chunk: seq<byte>)
    requires GetRange(chunk).Some? && CLOSE in GetRange(chunk).value.1
    ensures CLOSE in chunk
  {
    hide GetEsc;
    var c := GetEsc(chunk).value.1;
    if c[0] == DASH {
      EscCloses(c[1..]);
    }
    EscCloses(chunk);
  }

  lemma {:induction false} RangesClose(chunk: seq<byte>, seen: seq<Range>)
    requires GetRanges(chunk, seen).Some?
    ensures CLOSE in chunk
    decreases |chunk|
  {
    hide GetRange;
    if !(chunk != [] && chunk[0] == CLOSE && seen != []) {
      var (range, c) := GetRange(chunk).value;
      RangesClose(c, seen + [range]);
      RangeCloses(chunk);
    }
  }

  /** Where a class is malformed at its opening: nothing follows the bracket 91 and the optional 33, or
      a dash 45 or a closing bracket 93, or a lone 92, or malformed UTF-8; or no bracket closes it. */
  lemma BrokenClass(negated: bool, x: seq<byte>)
    requires negated || x == [] || x[0] != 33
    requires || x == [] || x[0] == 45 || x[0] == 93 || x == [92]
             || DecodeRune(x) == Decoded(65533, 1) || 93 !in x
    ensures Broken((if negated then [91, 33] else [91]) + x)
  {
    var q := (if negated then [91, 33] else [91]) + x;
    assert q[if negated then 2 else 1..] == x;
    if GetRanges(x, []).Some? {
      RangesClose(x, []);
    }
    BrokenIsUnparsed(q);
  }

  /** Outside a class only a lone 92 at the end is malformed. */
  lemma BrokenHead(q: seq<byte>)
    ensures Broken(q) ==> q == [92] || q[0] == 91
    ensures Broken([92])
  {
    BrokenIsUnparsed([92]);
    if q != [] {
      BrokenIsUnparsed(q);
    }
  }

  /** Every pattern outside the grammar goes wrong after a certain number of terms. */
  lemma {:induction false} BreaksAt(p: seq<byte>) returns (ts: seq<Term>, q: seq<byte>)
    requires !WellFormed(p)
    ensures ValidTerms(ts) && Broken(q) && p == Print(ts) + q
    decreases |p|
  {
    if GetTerm(p).None? {
      ts, q := [], p;
      BrokenIsUnparsed(p);
      assert [] + p == p;
    } else {
      var t := UnparseTerm(p);
      var more;
      more, q := BreaksAt(GetTerm(p).value.1);
      ts := [t] + more;
      PrintCons(ts, t, more);
      GlobExact.AppendAssoc(PrintTerm(t), Print(more), q);
    }
  }

  // ---------- Laying a chunk that begins well ----------

  lemma {:induction false} FitAppend(body: seq<Term>, x: seq<byte>, s: seq<byte>)
    requires Starless(body)
    ensures var fit := FitTokens(Meaning(body), s);
      FitChunk(Print(body) + x, s) == if fit.None? then Misfit else FitChunk(x, fit.value)
    decreases |body|
  {
    if body == [] {
      assert Print(body) + x == x;
    } else {
      var t, tail := body[0], Print(body[1..]) + x;
      PrintCons(body, t, body[1..]);
      GlobExact.AppendAssoc(PrintTerm(t), Print(body[1..]), x);
      GetTermPrint(t, tail);
      PrintHead(body);
      assert (PrintTerm(t) + tail)[0] == Print(body)[0];
      assert Meaning(body)[1..] == Meaning(body[1..]);
      if s != [] && TokenFits(TermMeaning(t), s) {
        FitAppend(body[1..], x, s[Width(TermMeaning(t), s)..]);
      }
    }
  }

  /** A chunk that breaks off errs where the same chunk with one '?' more would fit. */
  lemma FitBroken(body: seq<Term>, q: seq<byte>, s: seq<byte>)
    requires Starless(body) && q != [] && q[0] != STAR && GetTerm(q).None?
    ensures var fit := FitTokens(Meaning(body), s);
      FitChunk(Print(body) + q, s) == if fit.None? || fit.value == [] then Misfit else Malformed
    ensures FitChunk(Print(body) + q, s) == Malformed <==> FitChunk(Print(body) + [QUESTION], s).Fits?
    ensures !FitChunk(Print(body) + [QUESTION], s).Malformed?
  {
    FitAppend(body, q, s);
    FitAppend(body, [QUESTION], s);
  }

  lemma {:induction false} PlaceBroken(body: seq<Term>, q: seq<byte>, s: seq<byte>, last: bool, star: bool)
    requires Starless(body) && q != [] && q[0] != STAR && GetTerm(q).None?
    ensures !Place(Print(body) + q, s, last, star).Fits?
    ensures Place(Print(body) + q, s, last, star) == Malformed <==> Place(Print(body) + [QUESTION], s, false, star).Fits?
    decreases |s|
  {
    hide FitChunk, Print, GetTerm;
    FitBroken(body, q, s);
    if star && s != [] {
      PlaceBroken(body, q, s[1..], last, star);
    }
  }

  // ---------- One chunk ----------

  /** The terms take the front of the name, and something is left of it. */
  ghost predicate StopsShort(ts: seq<Term>, name: seq<byte>) {
    exists n: nat :: n < |name| && Takes(ts, name, n)
  }

  lemma {:induction false} FitTakes(body: seq<Term>, s: seq<byte>, n: nat)
    requires Starless(body) && n <= |s|
    ensures Takes(body, s, n) <==> FitTokens(Meaning(body), s) == Some(s[n..])
    decreases |body|
  {
    var tokens := Meaning(body);
    if body != [] {
      MeaningCons(body, []);
      assert tokens == [TermMeaning(body[0])] + Meaning(body[1..]);
      if s != [] && TokenFits(tokens[0], s) {
        var w := Width(tokens[0], s);
        TermTakesToken(body[0], s, w);
        if w <= n {
          SliceSlice(s, w, n);
          FitTakes(body[1..], s[w..], n - w);
        } else {
          FitLength(tokens[1..], s[w..]);
        }
      }
      forall i: nat | TermTakes(body[0], s, i) ensures s != [] && TokenFits(tokens[0], s) && i == Width(tokens[0], s) {
        TermTakesToken(body[0], s, i);
      }
    } else {
      assert n > 0 ==> |s[n..]| < |s|;
      assert n == 0 ==> s[n..] == s;
    }
  }

  lemma FitIsSuffix(tokens: seq<Token>, s: seq<byte>) returns (n: nat)
    requires FitTokens(tokens, s).Some?
    ensures n <= |s| && FitTokens(tokens, s).value == s[n..]
    decreases |tokens|
  {
    if tokens == [] {
      n := 0;
      assert s[0..] == s;
    } else {
      var w := Width(tokens[0], s);
      n := FitIsSuffix(tokens[1..], s[w..]);
      n := n + w;
      SliceSlice(s, w, n);
    }
  }

  /** What matchChunk does with a well-formed chunk, and with one that breaks off. */
  lemma ChunkMeaning(body: seq<Term>, q: seq<byte>, s: seq<byte>)
    requires Starless(body)
    ensures forall n: nat :: n <= |s| ==> (FitChunk(Print(body), s) == Fits(s[n..]) <==> Takes(body, s, n))
    ensures FitChunk(Print(body), s) == Misfit <==> forall n: nat :: n <= |s| ==> !Takes(body, s, n)
    ensures Broken(q) ==>
      FitChunk(Print(body) + q, s) == if StopsShort(body, s) then Malformed else Misfit
  {
    var fit := FitTokens(Meaning(body), s);
    StarlessMeaning(body);
    FitChunkTokens(Print(body), s);
    forall n: nat | n <= |s| ensures Takes(body, s, n) <==> fit == Some(s[n..]) {
      FitTakes(body, s, n);
    }
    if fit.Some? {
      var n := FitIsSuffix(Meaning(body), s);
      assert Takes(body, s, n);
      assert fit.value == [] <==> n == |s|;
    }
    if Broken(q) {
      BrokenIsUnparsed(q);
      FitBroken(body, q, s);
    }
  }

  // ---------- Cutting a pattern that begins well ----------

  function Lead(star: bool): seq<byte> {
    if star then [STAR] else []
  }

  lemma {:induction false} ScanBody(body: seq<Term>, x: seq<byte>)
    requires Starless(body)
    ensures ScanLen(Print(body) + x, false) == |Print(body)| + ScanLen(x, false)
  {
    if body == [] {
      assert Print(body) + x == x;
    } else {
      GlobExact.AppendAssoc(PrintTerm(body[0]), Print(body[1..]), x);
      ScanTerm(body[0], Print(body[1..]) + x);
      ScanBody(body[1..], x);
    }
  }

  lemma ScanLead(star: bool, chunk: seq<byte>, rest: seq<byte>)
    requires chunk != [] && chunk[0] != STAR && ScanLen(chunk + rest, false) == |chunk|
    ensures ScanOf(Lead(star) + (chunk + rest)) == Scan(star, chunk, rest)
  {
    var p := Lead(star) + (chunk + rest);
    assert (chunk + rest)[0] == chunk[0];
    assert star ==> p[1..] == chunk + rest;
    assert !star ==> p == chunk + rest && p[0..] == p;
    ScanCut(p, chunk, rest);
  }

  lemma ScanBodyLead(star: bool, body: seq<Term>, front: seq<byte>, rest: seq<byte>)
    requires Starless(body) && Print(body) + front != [] && (front != [] ==> front[0] != STAR)
    requires ScanLen(front + rest, false) == |front|
    ensures ScanOf(Lead(star) + (Print(body) + (front + rest))) == Scan(star, Print(body) + front, rest)
  {
    var chunk := Print(body) + front;
    ScanBody(body, front + rest);
    GlobExact.AppendAssoc(Print(body), front, rest);
    if body != [] {
      PrintHead(body);
      assert chunk[0] == Print(body)[0];
    } else {
      assert chunk == front;
    }
    ScanLead(star, chunk, rest);
  }

  lemma {:induction false} PrintConcat(a: seq<Term>, b: seq<Term>)
    requires ValidTerms(a) && ValidTerms(b)
    ensures ValidTerms(a + b) && Print(a + b) == Print(a) + Print(b)
  {
    if a == [] {
      assert a + b == b;
    } else {
      assert a + b == [a[0]] + (a[1..] + b);
      PrintConcat(a[1..], b);
      PrintCons(a, a[0], a[1..]);
      PrintCons(a + b, a[0], a[1..] + b);
      GlobExact.AppendAssoc(PrintTerm(a[0]), Print(a[1..]), Print(b));
    }
  }

  /** The terms before the first star, and the others. */
  lemma {:induction false} SplitAtStar(ts: seq<Term>) returns (body: seq<Term>, more: seq<Term>)
    requires ValidTerms(ts)
    ensures ts == body + more && Starless(body) && ValidTerms(more)
    ensures more != [] ==> more[0] == StarTerm
    ensures ts != [] && ts[0] != StarTerm ==> body != []
  {
    if ts == [] || ts[0] == StarTerm {
      body, more := [], ts;
    } else {
      var rest;
      rest, more := SplitAtStar(ts[1..]);
      body := [ts[0]] + rest;
      assert ts == body + more;
    }
  }

  lemma StarStar(x: seq<byte>, name: seq<byte>)
    ensures Run([STAR, STAR] + x, name) == Run([STAR] + x, name)
  {
    var p, p' := [STAR, STAR] + x, [STAR] + x;
    assert p[1..] == p' && p'[1..] == x;
    assert Stars(p) == Stars(p') + 1;
    assert p[Stars(p)..] == p'[Stars(p')..];
  }

  lemma BrokenCut(q: seq<byte>) returns (c: seq<byte>, rest: seq<byte>)
    requires q != [] && GetTerm(q).None?
    ensures q == c + rest && c != [] && c[0] != STAR && GetTerm(c).None?
    ensures ScanLen(c + rest, false) == |c|
  {
    var l := ScanLen(q, false);
    c, rest := q[..l], q[l..];
    assert q == c + rest && q[0] != STAR && c[0] == q[0];
    if GetTerm(c).Some? {
      CutTerm(c, rest);
    }
  }

  /** The malformed term lies in the chunk that is laid next. */
  lemma BrokenChunk(star: bool, body: seq<Term>, q: seq<byte>, name: seq<byte>)
    requires Starless(body) && q != [] && GetTerm(q).None?
    ensures Run(Lead(star) + (Print(body) + q), name) == BadPattern <==>
      Place(Print(body) + [QUESTION], name, false, star).Fits?
  {
    hide Place, Print, GetTerm, ScanOf, ScanLen;
    var c, rest := BrokenCut(q);
    ScanBodyLead(star, body, c, rest);
    PlaceBroken(body, c, name, rest == [], star);
  }

  lemma ProbeChunk(star: bool, body: seq<Term>, name: seq<byte>)
    requires Starless(body)
    ensures Run(Lead(star) + (Print(body) + [QUESTION, STAR]), name) == Matched <==>
      Place(Print(body) + [QUESTION], name, false, star).Fits?
  {
    hide Place, Print;
    assert [QUESTION, STAR] == [QUESTION] + [STAR];
    assert ScanLen([QUESTION] + [STAR], false) == 1 by {
      assert ([QUESTION] + [STAR])[1..] == [STAR];
    }
    ScanBodyLead(star, body, [QUESTION], [STAR]);
    var place := Place(Print(body) + [QUESTION], name, false, star);
    if place.Fits? {
      StarAlone(place.rest);
    }
  }

  lemma NextChunk(star: bool, body: seq<Term>, more: seq<byte>, name: seq<byte>)
    requires Starless(body) && body != [] && more != [] && more[0] == STAR
    ensures var place := Place(Print(body), name, false, star);
      Run(Lead(star) + (Print(body) + more), name) == if place.Fits? then Run(more, place.rest) else Unmatched
  {
    PrintHead(body);
    assert Print(body) + [] == Print(body) && [] + more == more;
    assert ScanLen([] + more, false) == 0;
    ScanBodyLead(star, body, [], more);
    StarlessMeaning(body);
    PlaceClean(Print(body), name, false, star);
  }

  lemma LeadTwice(y: seq<byte>, name: seq<byte>)
    ensures Run(Lead(true) + ([STAR] + y), name) == Run(Lead(true) + y, name)
    ensures Lead(false) + ([STAR] + y) == Lead(true) + y
  {
    hide Run;
    StarStar(y, name);
    assert [STAR] + ([STAR] + y) == [STAR, STAR] + y;
  }

  lemma StarFirst(star: bool, ts: seq<Term>, x: seq<byte>, name: seq<byte>)
    requires ValidTerms(ts) && ts != [] && ts[0] == StarTerm
    ensures Run(Lead(star) + (Print(ts) + x), name) == Run(Lead(true) + (Print(ts[1..]) + x), name)
  {
    PrintCons(ts, StarTerm, ts[1..]);
    hide Run, Print, Lead;
    GlobExact.AppendAssoc([STAR], Print(ts[1..]), x);
    LeadTwice(Print(ts[1..]) + x, name);
  }

  lemma SplitText(ts: seq<Term>, body: seq<Term>, more: seq<Term>, x: seq<byte>)
    requires ts == body + more && ValidTerms(body) && ValidTerms(more) && ValidTerms(ts)
    ensures Print(ts) + x == Print(body) + (Print(more) + x)
    ensures more == [] ==> Print(ts) + x == Print(body) + x
    ensures more != [] && more[0] == StarTerm ==> (Print(more) + x) != [] && (Print(more) + x)[0] == STAR
  {
    PrintConcat(body, more);
    GlobExact.AppendAssoc(Print(body), Print(more), x);
    if more == [] {
      assert Print(more) + x == x;
    } else if more[0] == StarTerm {
      PrintCons(more, StarTerm, more[1..]);
      assert (Print(more) + x)[0] == PrintTerm(StarTerm)[0];
    }
  }

  /** fnMatch errs on a pattern exactly where it would match if a '?' and a star stood in place of the
      malformed rest. */
  lemma {:induction false} BadLikeProbe(star: bool, ts: seq<Term>, q: seq<byte>, name: seq<byte>)
    requires ValidTerms(ts) && q != [] && GetTerm(q).None?
    ensures Run(Lead(star) + (Print(ts) + q), name) == BadPattern <==>
      Run(Lead(star) + (Print(ts) + [QUESTION, STAR]), name) == Matched
    decreases |ts|
  {
    hide Run, Place, Print;
    if ts != [] && ts[0] == StarTerm {
      StarFirst(star, ts, q, name);
      StarFirst(star, ts, [QUESTION, STAR], name);
      BadLikeProbe(true, ts[1..], q, name);
    } else {
      var body, more := SplitAtStar(ts);
      SplitText(ts, body, more, q);
      SplitText(ts, body, more, [QUESTION, STAR]);
      if more == [] {
        BrokenChunk(star, body, q, name);
        ProbeChunk(star, body, name);
      } else {
        NextChunk(star, body, Print(more) + q, name);
        NextChunk(star, body, Print(more) + [QUESTION, STAR], name);
        var place := Place(Print(body), name, false, star);
        if place.Fits? {
          BadLikeProbe(false, more, q, place.rest);
          assert Lead(false) + (Print(more) + q) == Print(more) + q;
          assert Lead(false) + (Print(more) + [QUESTION, STAR]) == Print(more) + [QUESTION, STAR];
        }
      }
    }
  }

  // ---------- When fnMatch errs ----------

  /** For every name and every place at which a pattern breaks off: fnMatch errs exactly if the terms
      before that place, followed by a '?' and a star, match the name. */
  lemma ErrorsLikeProbe(ts: seq<Term>, q: seq<byte>, name: seq<byte>)
    requires ValidTerms(ts) && Broken(q)
    ensures Run(Print(ts) + q, name) == BadPattern <==> Run(Print(ts) + [63, 42], name) == Matched
  {
    hide Run, Print;
    BrokenIsUnparsed(q);
    BadLikeProbe(false, ts, q, name);
    assert Lead(false) + (Print(ts) + q) == Print(ts) + q;
    assert Lead(false) + (Print(ts) + [63, 42]) == Print(ts) + [63, 42];
  }

  lemma RestNotEmpty(s: seq<byte>)
    ensures Matches([Any, Star], s) <==> s != []
  {
    assert [Any, Star][1..] == [Star] && [Star][1..] == [];
    if s != [] {
      var t := s[DecodeRune(s).n..];
      assert t[|t|..] == [];
      assert Matches([], t[|t|..]);
    }
  }

  lemma ProbeText(ts: seq<Term>)
    requires ValidTerms(ts)
    ensures var all := ts + [AnyTerm, StarTerm];
      ValidTerms(all) && Print(all) == Print(ts) + [63, 42] && Meaning(all) == Meaning(ts) + [Any, Star]
  {
    var probe := [AnyTerm, StarTerm];
    PrintConcat(ts, probe);
    MeaningConcat(ts, probe);
    PrintCons(probe, AnyTerm, [StarTerm]);
    PrintCons([StarTerm], StarTerm, []);
    assert Print(probe) == [63, 42];
    assert Meaning([StarTerm]) == [Star] && probe[1..] == [StarTerm];
    assert Meaning(probe) == [Any] + [Star];
  }

  /** fnMatch errs exactly if the terms before the first malformed one take a proper prefix of the name:
      on narrow names, and for patterns with literals between stars on every name. */
  lemma ErrorMeaning(ts: seq<Term>, q: seq<byte>, name: seq<byte>)
    requires ValidTerms(ts) && Broken(q)
    requires Narrow(name) || LiteralBetweenStars(Meaning(ts) + [Any, Star])
    ensures Run(Print(ts) + q, name) == BadPattern <==> StopsShort(ts, name)
  {
    hide Run, Print, Takes, Matches, LiteralBetweenStars, Narrow;
    var all := ts + [AnyTerm, StarTerm];
    ErrorsLikeProbe(ts, q, name);
    ProbeText(ts);
    VerdictMeaning(all, name);
    MatchesIsTakes(all, name);
    if Matches(Meaning(all), name) {
      var n := MatchesToTakes(ts, [Any, Star], name);
      RestNotEmpty(name[n..]);
    }
    if n: nat :| n < |name| && Takes(ts, name, n) {
      RestNotEmpty(name[n..]);
      TakesToMatches(ts, [Any, Star], name, n);
    }
  }

  /** For a pattern without a star before the malformed term this is so on every name. */
  lemma ErrorMeaningStarless(ts: seq<Term>, q: seq<byte>, name: seq<byte>)
    requires Starless(ts) && Broken(q)
    ensures Run(Print(ts) + q, name) == BadPattern <==> StopsShort(ts, name)
  {
    StarlessMeaning(ts);
    NoStarIsExact(Meaning(ts));
    ErrorMeaning(ts, q, name);
  }

  /** A pattern that is malformed from the start errs on every name but the empty one. */
  lemma BadFromTheStart(q: seq<byte>, name: seq<byte>)
    requires Broken(q)
    ensures Run(q, name) == BadPattern <==> name != []
  {
    hide Run, Broken;
    ErrorMeaningStarless([], q, name);
    assert Print([]) + q == q;
    assert Takes([], name, 0);
    assert StopsShort([], name) <==> name != [];
  }

  /** Of any pattern at all, on a narrow name. */
  lemma ErrorsExactly(p: seq<byte>, name: seq<byte>)
    requires Narrow(name)
    ensures Run(p, name) == BadPattern <==>
      exists ts, q :: ValidTerms(ts) && Broken(q) && p == Print(ts) + q && StopsShort(ts, name)
  {
    hide Run, Print, StopsShort, Narrow, Broken;
    if Run(p, name) == BadPattern {
      ErrorsAreMalformed(p, name);
      var ts, q := BreaksAt(p);
      ErrorMeaning(ts, q, name);
    }
    forall ts, q | ValidTerms(ts) && Broken(q) && p == Print(ts) + q && StopsShort(ts, name)
      ensures Run(p, name) == BadPattern
    {
      ErrorMeaning(ts, q, name);
    }
  }
}
