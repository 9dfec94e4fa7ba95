/** What fnMatch achieves: soundness against a declarative matcher for every name, exactness
    wherever first-fit placement cannot overshoot, and the exact set of names on which it can. */
module GlobTheorems {
  import opened Options
  import opened Utf8
  import opened GlobPattern
  import opened GlobMatch
  import opened GlobScan

  // ---------- The declarative matcher ----------

  /** The tokens match all of `s`: a star takes any run of bytes, every other token the rune
      (a literal: the byte) at the front. */
  ghost predicate Matches(tokens: seq<Token>, s: seq<byte>)
    decreases |tokens|
  {
    if tokens == [] then s == []
    else if tokens[0].Star? then exists k :: 0 <= k <= |s| && Matches(tokens[1..], s[k..])
    else s != [] && TokenFits(tokens[0], s) && Matches(tokens[1..], s[Width(tokens[0], s)..])
  }

  /** The pattern is well formed and matches all of `name`. */
  ghost predicate Accepts(pattern: seq<byte>, name: seq<byte>) {
    Parse(pattern).Some? && Matches(Parse(pattern).value, name)
  }

  // ---------- Chunks and stars as tokens ----------

  function FitTokens(tokens: seq<Token>, s: seq<byte>): Option<seq<byte>>
    decreases |tokens|
  {
    if tokens == [] then Some(s)
    else if s == [] || !TokenFits(tokens[0], s) then None
    else FitTokens(tokens[1..], s[Width(tokens[0], s)..])
  }

  /** On a well-formed chunk lazy parsing makes no difference. */
  lemma {:induction false} FitChunkTokens(chunk: seq<byte>, s: seq<byte>)
    requires Parse(chunk).Some? && NoStar(Parse(chunk).value)
    ensures FitChunk(chunk, s) == match FitTokens(Parse(chunk).value, s) { case None => Misfit case Some(t) => Fits(t) }
    decreases |chunk|
  {
    if chunk != [] {
      var (token, c) := GetTerm(chunk).value;
      var tokens := Parse(chunk).value;
      assert tokens[0] == token && tokens[1..] == Parse(c).value;
      assert NoStar(Parse(c).value) by {
        forall k | 0 <= k < |Parse(c).value| ensures Parse(c).value[k] != Star {
          assert tokens[k + 1] == Parse(c).value[k];
        }
      }
      if s != [] && TokenFits(token, s) {
        FitChunkTokens(c, s[Width(token, s)..]);
      }
    }
  }

  lemma {:induction false} MatchesChunk(tokens: seq<Token>, more: seq<Token>, s: seq<byte>)
    requires NoStar(tokens)
    ensures Matches(tokens + more, s) <==> FitTokens(tokens, s).Some? && Matches(more, FitTokens(tokens, s).value)
    decreases |tokens|
  {
    if tokens == [] {
      assert tokens + more == more;
    } else {
      assert (tokens + more)[1..] == tokens[1..] + more;
      if s != [] && TokenFits(tokens[0], s) {
        MatchesChunk(tokens[1..], more, s[Width(tokens[0], s)..]);
      }
    }
  }

  lemma {:induction false} MatchesStars(n: nat, more: seq<Token>, s: seq<byte>)
    ensures n == 0 ==> (Matches(StarRun(n) + more, s) <==> Matches(more, s))
    ensures n > 0 ==> (Matches(StarRun(n) + more, s) <==> exists k :: 0 <= k <= |s| && Matches(more, s[k..]))
  {
    if n == 0 {
      assert StarRun(n) + more == more;
    } else {
      assert (StarRun(n) + more)[1..] == StarRun(n - 1) + more;
      if n > 1 {
        forall k | 0 <= k <= |s|
          ensures Matches(StarRun(n - 1) + more, s[k..]) <==> exists j :: k <= j <= |s| && Matches(more, s[j..])
        {
          MatchesStars(n - 1, more, s[k..]);
          forall i | 0 <= i <= |s[k..]| ensures s[k..][i..] == s[k + i..] {}
          forall j | k <= j <= |s| && Matches(more, s[j..]) ensures Matches(StarRun(n - 1) + more, s[k..]) {
            assert s[k..][j - k..] == s[j..];
          }
        }
        if exists j :: 0 <= j <= |s| && Matches(more, s[j..]) {
          assert Matches(StarRun(n - 1) + more, s[0..]);
        }
      } else {
        forall k | 0 <= k <= |s|
          ensures Matches(StarRun(n - 1) + more, s[k..]) <==> Matches(more, s[k..])
        {
          MatchesStars(n - 1, more, s[k..]);
        }
      }
    }
  }

  /** A pattern that begins with a star matches a longer name whenever it matches a suffix. */
  lemma StarAbsorbs(tokens: seq<Token>, s: seq<byte>, k: nat)
    requires tokens != [] && tokens[0].Star? && k <= |s| && Matches(tokens, s[k..])
    ensures Matches(tokens, s)
  {
    var i :| 0 <= i <= |s[k..]| && Matches(tokens[1..], s[k..][i..]);
    assert s[k..][i..] == s[k + i..];
  }

  // ---------- Placement ----------

  /** `i` is a place at which fnMatch may put the chunk. */
  ghost predicate Candidate(chunk: seq<byte>, s: seq<byte>, last: bool, star: bool, i: nat) {
    && i <= |s| && (star || i == 0)
    && FitChunk(chunk, s[i..]).Fits?
    && (last ==> FitChunk(chunk, s[i..]).rest == [])
  }

  /** Placement on a chunk that parses finds the first candidate, and fails only if there is none. */
  lemma {:induction false} PlaceFirst(chunk: seq<byte>, s: seq<byte>, last: bool, star: bool) returns (i: nat)
    requires Place(chunk, s, last, star).Fits?
    ensures Candidate(chunk, s, last, star, i)
    ensures Place(chunk, s, last, star) == FitChunk(chunk, s[i..])
    ensures forall j :: 0 <= j < i ==> !Candidate(chunk, s, last, star, j)
    decreases |s|
  {
    assert s[0..] == s;
    if FitChunk(chunk, s).Fits? && (FitChunk(chunk, s).rest == [] || !last) {
      i := 0;
    } else {
      var i' := PlaceFirst(chunk, s[1..], last, star);
      i := i' + 1;
      assert s[1..][i'..] == s[i..];
      forall j | 0 <= j < i ensures !Candidate(chunk, s, last, star, j) {
        if j > 0 {
          assert s[1..][j - 1..] == s[j..];
          assert !Candidate(chunk, s[1..], last, star, j - 1);
        }
      }
    }
  }

  lemma {:induction false} PlaceMisses(chunk: seq<byte>, s: seq<byte>, last: bool, star: bool, j: nat)
    requires Place(chunk, s, last, star) == Misfit
    ensures !Candidate(chunk, s, last, star, j)
    decreases |s|
  {
    assert s[0..] == s;
    if star && 0 < j <= |s| {
      PlaceMisses(chunk, s[1..], last, star, j - 1);
      assert s[1..][j - 1..] == s[j..];
    }
  }

  lemma {:induction false} PlaceClean(chunk: seq<byte>, s: seq<byte>, last: bool, star: bool)
    requires Parse(chunk).Some? && NoStar(Parse(chunk).value)
    ensures !Place(chunk, s, last, star).Malformed?
    decreases |s|
  {
    FitChunkTokens(chunk, s);
    if star && s != [] {
      PlaceClean(chunk, s[1..], last, star);
    }
  }

  // ---------- Well-formed patterns never error; only well-formed patterns match ----------

  lemma AppendParts(p: seq<byte>)
    requires p != []
    ensures WellFormed(p) <==> WellFormed(ScanOf(p).chunk) && WellFormed(ScanOf(p).rest)
    ensures WellFormed(ScanOf(p).chunk) ==> NoStar(Parse(ScanOf(p).chunk).value)
  {
    ParseScan(p);
  }

  /** The tokens of a well-formed pattern, split where scanChunk splits the text. */
  lemma Parts(p: seq<byte>) returns (stars: nat, tokens: seq<Token>, more: seq<Token>)
    requires p != []
    ensures WellFormed(ScanOf(p).chunk) && WellFormed(ScanOf(p).rest) ==>
      && Parse(p) == Some(StarRun(stars) + (tokens + more))
      && Parse(ScanOf(p).chunk) == Some(tokens) && NoStar(tokens)
      && Parse(ScanOf(p).rest) == Some(more)
      && (ScanOf(p).star <==> stars > 0)
  {
    stars, tokens, more := 0, [], [];
    if WellFormed(ScanOf(p).chunk) && WellFormed(ScanOf(p).rest) {
      stars, tokens, more := Stars(p), Parse(ScanOf(p).chunk).value, Parse(ScanOf(p).rest).value;
      ParseScan(p);
      AppendAssoc(Some(StarRun(stars)), Some(tokens), Some(more));
    }
  }

  /** ErrBadPattern is returned only for patterns outside the documented grammar. */
  lemma {:induction false} ErrorsAreMalformed(pattern: seq<byte>, name: seq<byte>)
    requires Run(pattern, name) == BadPattern
    ensures !WellFormed(pattern)
    decreases |pattern|
  {
    if WellFormed(pattern) {
      AppendParts(pattern);
      var scan := ScanOf(pattern);
      PlaceClean(scan.chunk, name, scan.rest == [], scan.star);
      var place := Place(scan.chunk, name, scan.rest == [], scan.star);
      ErrorsAreMalformed(scan.rest, place.rest);
    }
  }

  lemma TokensTake(n: nat, tokens: seq<Token>, more: seq<Token>, s: seq<byte>, k: nat)
    requires NoStar(tokens)
    requires k <= |s| && (n > 0 || k == 0)
    requires FitTokens(tokens, s[k..]).Some? && Matches(more, FitTokens(tokens, s[k..]).value)
    ensures Matches(StarRun(n) + (tokens + more), s)
  {
    assert s[0..] == s;
    MatchesChunk(tokens, more, s[k..]);
    MatchesStars(n, tokens + more, s);
  }

  /** A placed chunk and a match of the rest make a match of the whole. */
  lemma AcceptsAt(pattern: seq<byte>, name: seq<byte>, i: nat, t: seq<byte>)
    requires pattern != [] && i <= |name|
    ensures var scan := ScanOf(pattern);
      WellFormed(scan.chunk) && (scan.star || i == 0) && FitChunk(scan.chunk, name[i..]) == Fits(t) && Accepts(scan.rest, t)
      ==> Accepts(pattern, name)
  {
    hide ScanOf, Parse, FitChunk, FitTokens, Matches, StarRun;
    var scan := ScanOf(pattern);
    if WellFormed(scan.chunk) && (scan.star || i == 0) && FitChunk(scan.chunk, name[i..]) == Fits(t) && Accepts(scan.rest, t) {
      var stars, tokens, more := Parts(pattern);
      FitChunkTokens(scan.chunk, name[i..]);
      TokensTake(stars, tokens, more, name, i);
    }
  }

  /** The converse: a match of the whole places the first chunk somewhere. */
  lemma AcceptsSplit(pattern: seq<byte>, name: seq<byte>) returns (i: nat)
    requires pattern != [] && Accepts(pattern, name)
    ensures i <= |name| && (ScanOf(pattern).star || i == 0)
    ensures FitChunk(ScanOf(pattern).chunk, name[i..]).Fits?
    ensures Accepts(ScanOf(pattern).rest, FitChunk(ScanOf(pattern).chunk, name[i..]).rest)
  {
    AppendParts(pattern);
    var stars, tokens, more := Parts(pattern);
    MatchesStars(stars, tokens + more, name);
    assert name[0..] == name;
    if stars > 0 {
      i :| 0 <= i <= |name| && Matches(tokens + more, name[i..]);
    } else {
      i := 0;
    }
    FitChunkTokens(ScanOf(pattern).chunk, name[i..]);
    MatchesChunk(tokens, more, name[i..]);
  }

  lemma StarsTakeAll(n: nat, name: seq<byte>)
    requires n > 0
    ensures Matches(StarRun(n) + ([] + []), name)
  {
    TokensTake(n, [], [], name, |name|);
  }

  lemma TrailingStar(pattern: seq<byte>, name: seq<byte>)
    requires pattern != [] && ScanOf(pattern).star && ScanOf(pattern).chunk == []
    ensures Accepts(pattern, name)
  {
    AppendParts(pattern);
    var stars, tokens, more := Parts(pattern);
    StarsTakeAll(stars, name);
  }

  /** Soundness for every name: a match has a split of the name to show for it. */
  lemma {:induction false} RunSound(pattern: seq<byte>, name: seq<byte>)
    requires Run(pattern, name) == Matched
    ensures Accepts(pattern, name)
    decreases |pattern|
  {
    if pattern != [] {
      var scan := ScanOf(pattern);
      if scan.star && scan.chunk == [] {
        TrailingStar(pattern, name);
      } else {
        RunSound(scan.rest, Place(scan.chunk, name, scan.rest == [], scan.star).rest);
        var i := PlaceFirst(scan.chunk, name, scan.rest == [], scan.star);
        CutScan(pattern);
        FitParses(scan.chunk, scan.rest, name[i..]);
        AcceptsAt(pattern, name, i, FitChunk(scan.chunk, name[i..]).rest);
      }
    }
  }

  // ---------- First fit loses nothing ----------

  predicate IsSuffix(t: seq<byte>, s: seq<byte>) {
    |t| <= |s| && t == s[|s| - |t|..]
  }

  /** No position of the name decodes to a rune of three or four bytes: the name holds no code
      point from U+0800 on. Every ASCII name is narrow. */
  predicate Narrow(name: seq<byte>) {
    forall i :: 0 <= i < |name| ==> DecodeRune(name[i..]).n <= 2
  }

  /** Token `k` has a star before it, and after it a star that something still follows. */
  predicate Sandwiched(tokens: seq<Token>, k: nat) {
    && (exists i :: 0 <= i < k < |tokens| && tokens[i].Star?)
    && (exists j, l :: k < j < l < |tokens| && tokens[j].Star? && !tokens[l].Star?)
  }

  /** Between two such stars the pattern uses literals only. */
  predicate LiteralBetweenStars(tokens: seq<Token>) {
    forall k :: 0 <= k < |tokens| && Sandwiched(tokens, k) ==> tokens[k].Literal? || tokens[k].Star?
  }

  predicate AllLiteral(tokens: seq<Token>) {
    forall k :: 0 <= k < |tokens| ==> tokens[k].Literal?
  }

  lemma SuffixTrans(a: seq<byte>, b: seq<byte>, c: seq<byte>)
    requires IsSuffix(a, b) && IsSuffix(b, c)
    ensures IsSuffix(a, c)
  {
    assert a == c[|c| - |b|..][|b| - |a|..];
  }

  lemma SuffixOrder(a: seq<byte>, b: seq<byte>, s: seq<byte>)
    requires IsSuffix(a, s) && IsSuffix(b, s) && |a| <= |b|
    ensures IsSuffix(a, b)
  {
    assert b[|b| - |a|..] == s[|s| - |a|..];
  }

  lemma NarrowSuffix(t: seq<byte>, s: seq<byte>)
    requires IsSuffix(t, s) && Narrow(s)
    ensures Narrow(t)
  {
    forall i | 0 <= i < |t| ensures DecodeRune(t[i..]).n <= 2 {
      assert t[i..] == s[|s| - |t| + i..];
    }
  }

  lemma {:induction false} FitSuffix(tokens: seq<Token>, s: seq<byte>)
    ensures FitTokens(tokens, s).Some? ==> IsSuffix(FitTokens(tokens, s).value, s)
    decreases |tokens|
  {
    if FitTokens(tokens, s).Some? && tokens != [] {
      var s' := s[Width(tokens[0], s)..];
      FitSuffix(tokens[1..], s');
      SuffixTrans(FitTokens(tokens, s).value, s', s);
    }
  }

  /** The exchange argument: laid at an earlier place, a chunk does not end later. */
  lemma {:induction false} FitOrder(tokens: seq<Token>, a: seq<byte>, b: seq<byte>)
    requires IsSuffix(b, a)
    requires Narrow(a) || AllLiteral(tokens)
    requires FitTokens(tokens, a).Some? && FitTokens(tokens, b).Some?
    ensures |FitTokens(tokens, b).value| <= |FitTokens(tokens, a).value|
    decreases |tokens|
  {
    if tokens != [] {
      var a', b' := a[Width(tokens[0], a)..], b[Width(tokens[0], b)..];
      if |a| == |b| {
        assert a == b;
      } else {
        assert a[0..] == a;
        SuffixTrans(b', b, a);
        SuffixOrder(b', a', a);
        if Narrow(a) {
          NarrowSuffix(a', a);
        }
        FitOrder(tokens[1..], a', b');
      }
    }
  }

  lemma {:induction false} OnlyStars(tokens: seq<Token>, s: seq<byte>)
    requires tokens != [] && forall k :: 0 <= k < |tokens| ==> tokens[k].Star?
    ensures Matches(tokens, s)
  {
    if |tokens| == 1 {
      assert Matches(tokens[1..], s[|s|..]);
    } else {
      OnlyStars(tokens[1..], s);
      assert s[0..] == s;
    }
  }

  lemma StarAbsorbsSuffix(tokens: seq<Token>, s: seq<byte>, t: seq<byte>)
    requires tokens != [] && tokens[0].Star? && IsSuffix(t, s) && Matches(tokens, t)
    ensures Matches(tokens, s)
  {
    StarAbsorbs(tokens, s, |s| - |t|);
  }

  lemma FitEndsInOrder(tokens: seq<Token>, a: seq<byte>, b: seq<byte>)
    requires IsSuffix(b, a)
    requires FitTokens(tokens, a).Some? && FitTokens(tokens, b).Some?
    requires Narrow(a) || AllLiteral(tokens)
    ensures IsSuffix(FitTokens(tokens, b).value, FitTokens(tokens, a).value)
  {
    FitOrder(tokens, a, b);
    FitSuffix(tokens, a);
    FitSuffix(tokens, b);
    SuffixTrans(FitTokens(tokens, b).value, b, a);
    SuffixOrder(FitTokens(tokens, b).value, FitTokens(tokens, a).value, a);
  }

  /** A match of what follows a chunk moves from a later placement of the chunk to an earlier one. */
  lemma Exchange(tokens: seq<Token>, more: seq<Token>, a: seq<byte>, b: seq<byte>)
    requires IsSuffix(b, a)
    requires FitTokens(tokens, a).Some? && FitTokens(tokens, b).Some?
    requires more != [] && more[0].Star? && Matches(more, FitTokens(tokens, b).value)
    requires Narrow(a) || AllLiteral(tokens)
    ensures Matches(more, FitTokens(tokens, a).value)
  {
    FitEndsInOrder(tokens, a, b);
    StarAbsorbsSuffix(more, FitTokens(tokens, a).value, FitTokens(tokens, b).value);
  }

  lemma {:induction false} StarRunLength(n: nat)
    ensures |StarRun(n)| == n && forall k :: 0 <= k < n ==> StarRun(n)[k] == Star
  {
    if n > 0 {
      StarRunLength(n - 1);
    }
  }

  lemma MiddleIsLiteral(n: nat, tokens: seq<Token>, more: seq<Token>, l: nat)
    requires NoStar(tokens) && n > 0
    requires 0 < l < |more| && more[0].Star? && !more[l].Star?
    requires LiteralBetweenStars(StarRun(n) + (tokens + more))
    ensures AllLiteral(tokens)
  {
    var all := StarRun(n) + (tokens + more);
    StarRunLength(n);
    forall k | 0 <= k < |tokens| ensures tokens[k].Literal? {
      var j := n + |tokens|;
      assert all[0].Star? && all[n + k] == tokens[k] && all[j].Star? && !all[j + l].Star?;
      assert Sandwiched(all, n + k);
    }
  }

  /** Committing to the first fit keeps the rest of the pattern matchable. */
  lemma FirstFitSuffices(n: nat, tokens: seq<Token>, more: seq<Token>, name: seq<byte>, i: nat, j: nat)
    requires i <= j <= |name| && NoStar(tokens)
    requires n > 0 && more != [] && more[0].Star?
    requires FitTokens(tokens, name[i..]).Some? && FitTokens(tokens, name[j..]).Some?
    requires Matches(more, FitTokens(tokens, name[j..]).value)
    requires Narrow(name) || LiteralBetweenStars(StarRun(n) + (tokens + more))
    ensures Matches(more, FitTokens(tokens, name[i..]).value)
  {
    hide FitTokens, Matches, StarRun;
    if l :| 0 < l < |more| && !more[l].Star? {
      if Narrow(name) {
        NarrowSuffix(name[i..], name);
      } else {
        MiddleIsLiteral(n, tokens, more, l);
      }
      assert name[j..] == name[i..][j - i..];
      Exchange(tokens, more, name[i..], name[j..]);
    } else {
      OnlyStars(more, FitTokens(tokens, name[i..]).value);
    }
  }

  lemma MoreStaysLiteral(front: seq<Token>, more: seq<Token>)
    requires LiteralBetweenStars(front + more)
    ensures LiteralBetweenStars(more)
  {
    var all := front + more;
    forall k | 0 <= k < |more| && Sandwiched(more, k) ensures more[k].Literal? || more[k].Star? {
      var i :| 0 <= i < k < |more| && more[i].Star?;
      var j, l :| k < j < l < |more| && more[j].Star? && !more[l].Star?;
      assert all[|front| + i].Star? && all[|front| + j].Star? && !all[|front| + l].Star?;
      assert Sandwiched(all, |front| + k);
      assert all[|front| + k] == more[k];
    }
  }

  // ---------- Exactness ----------

  /** What is left of the name after the first candidate is accepted by the rest of the pattern. */
  lemma RestAccepts(pattern: seq<byte>, name: seq<byte>, i: nat, j: nat)
    requires pattern != [] && Accepts(pattern, name)
    requires Narrow(name) || LiteralBetweenStars(Parse(pattern).value)
    requires i <= j
    requires Candidate(ScanOf(pattern).chunk, name, ScanOf(pattern).rest == [], ScanOf(pattern).star, i)
    requires Candidate(ScanOf(pattern).chunk, name, ScanOf(pattern).rest == [], ScanOf(pattern).star, j)
    requires Accepts(ScanOf(pattern).rest, FitChunk(ScanOf(pattern).chunk, name[j..]).rest)
    ensures Accepts(ScanOf(pattern).rest, FitChunk(ScanOf(pattern).chunk, name[i..]).rest)
  {
    var chunk, rest := ScanOf(pattern).chunk, ScanOf(pattern).rest;
    if i < j && rest != [] {
      AppendParts(pattern);
      var stars, tokens, more := Parts(pattern);
      FitChunkTokens(chunk, name[i..]);
      FitChunkTokens(chunk, name[j..]);
      FirstFitSuffices(stars, tokens, more, name, i, j);
    }
  }

  lemma EmptyPattern(name: seq<byte>)
    requires Accepts([], name)
    ensures name == [] && Run([], name) == Matched
  {
  }

  /** Where no chunk can overshoot, fnMatch finds every match. */
  lemma {:induction false} RunComplete(pattern: seq<byte>, name: seq<byte>)
    requires Accepts(pattern, name)
    requires Narrow(name) || LiteralBetweenStars(Parse(pattern).value)
    ensures Run(pattern, name) == Matched
    decreases |pattern|
  {
    hide ScanOf, Parse, FitChunk, FitTokens, Matches, StarRun, Place, Narrow, LiteralBetweenStars;
    if pattern == [] {
      EmptyPattern(name);
    } else if !(ScanOf(pattern).star && ScanOf(pattern).chunk == []) {
      var chunk, rest, star := ScanOf(pattern).chunk, ScanOf(pattern).rest, ScanOf(pattern).star;
      var j := AcceptsSplit(pattern, name);
      AppendParts(pattern);
      PlaceClean(chunk, name, rest == [], star);
      if rest == [] {
        EmptyPattern(FitChunk(chunk, name[j..]).rest);
      }
      assert Candidate(chunk, name, rest == [], star, j);
      if Place(chunk, name, rest == [], star) == Misfit {
        PlaceMisses(chunk, name, rest == [], star, j);
      }
      var i := PlaceFirst(chunk, name, rest == [], star);
      assert i <= j;
      var t := FitChunk(chunk, name[i..]).rest;
      RestAccepts(pattern, name, i, j);
      var stars, tokens, more := Parts(pattern);
      FitChunkTokens(chunk, name[i..]);
      FitSuffix(tokens, name[i..]);
      SuffixTrans(t, name[i..], name);
      if Narrow(name) {
        NarrowSuffix(t, name);
      } else {
        assert StarRun(stars) + (tokens + more) == StarRun(stars) + tokens + more;
        MoreStaysLiteral(StarRun(stars) + tokens, more);
      }
      RunComplete(rest, t);
    }
  }
}
