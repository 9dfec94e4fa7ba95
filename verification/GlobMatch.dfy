/** The greedy matcher of common/blacklist/match.go. Each method carries the loops of the source
    and is tied to a function; GlobTheorems proves what those functions achieve. */
module GlobMatch {
  import opened Options
  import opened Utf8
  import opened GlobPattern

  // ---------- scanChunk ----------

  /** How many bytes of `p` scanChunk keeps: up to the first star it takes for a bare one. */
  function ScanLen(p: seq<byte>, inrange: bool): (n: nat)
    ensures n <= |p|
    ensures n < |p| ==> p[n] == STAR
    ensures n == 0 && p != [] ==> p[0] == STAR
    decreases |p|
  {
    if p == [] then 0
    else if p[0] == BACKSLASH then
      if |p| > 1 then 2 + ScanLen(p[2..], inrange) else 1
    else if p[0] == OPEN then 1 + ScanLen(p[1..], true)
    else if p[0] == CLOSE then 1 + ScanLen(p[1..], false)
    else if p[0] == STAR && !inrange then 0
    else 1 + ScanLen(p[1..], inrange)
  }

  /** The number of leading stars. */
  function Stars(p: seq<byte>): (n: nat)
    ensures n <= |p|
    ensures n < |p| ==> p[n] != STAR
    ensures forall k :: 0 <= k < n ==> p[k] == STAR
  {
    if p != [] && p[0] == STAR then 1 + Stars(p[1..]) else 0
  }

  datatype Scan = Scan(star: bool, chunk: seq<byte>, rest: seq<byte>)

  function ScanOf(p: seq<byte>): (s: Scan)
    ensures p == p[..Stars(p)] + s.chunk + s.rest
    ensures s.chunk != [] ==> s.chunk[0] != STAR
    ensures s.rest != [] ==> s.rest[0] == STAR && s.chunk != []
    ensures p != [] ==> |s.rest| < |p|
  {
    var q := p[Stars(p)..];
    var n := ScanLen(q, false);
    Scan(Stars(p) > 0, q[..n], q[n..])
  }

  /** The second loop of scanChunk. */
  method ScanLength(p: seq<byte>) returns (i: nat)
    ensures i == ScanLen(p, false)
  {
    var inrange := false;
    i := 0;
    while i < |p|
      invariant 0 <= i <= |p|
      invariant ScanLen(p, false) == i + ScanLen(p[i..], inrange)
    {
      if p[i] == BACKSLASH {
        if i + 1 < |p| {
          i := i + 1;
        }
      } else if p[i] == OPEN {
        inrange := true;
      } else if p[i] == CLOSE {
        inrange := false;
      } else if p[i] == STAR && !inrange {
        break;
      }
      i := i + 1;
    }
  }

  method ScanChunk(pattern: seq<byte>) returns (star: bool, chunk: seq<byte>, rest: seq<byte>)
    ensures Scan(star, chunk, rest) == ScanOf(pattern)
  {
    var p := pattern;
    star := false;
    ghost var k := 0;
    while |p| > 0 && p[0] == STAR
      invariant 0 <= k <= |pattern| && p == pattern[k..]
      invariant Stars(pattern) == k + Stars(p)
      invariant star <==> k > 0
      decreases |p|
    {
      p, k := p[1..], k + 1;
      star := true;
    }
    var i := ScanLength(p);
    chunk, rest := p[..i], p[i..];
  }

  // ---------- matchChunk ----------

  predicate TokenFits(token: Token, s: seq<byte>)
    requires s != []
  {
    match token
    case Literal(b) => s[0] == b
    case Any => true
    case Class(negated, ranges) => InRanges(ranges, DecodeRune(s).r) != negated
    case Star => false
  }

  /** How many bytes of the name a token consumes. */
  function Width(token: Token, s: seq<byte>): (n: nat)
    requires s != []
    ensures 1 <= n <= |s|
  {
    if token.Literal? then 1 else DecodeRune(s).n
  }

  /** matchChunk's view of the next term: a star that reaches it is an ordinary character. */
  function GetItem(chunk: seq<byte>): (m: Option<(Token, seq<byte>)>)
    requires chunk != []
    ensures m.Some? ==> |m.value.1| < |chunk|
  {
    if chunk[0] == STAR then Some((Literal(STAR), chunk[1..])) else GetTerm(chunk)
  }

  /** The outcome of laying a chunk against the front of a name. */
  datatype Fit = Fits(rest: seq<byte>) | Misfit | Malformed

  /** The chunk is parsed only as far as the name reaches. */
  function FitChunk(chunk: seq<byte>, s: seq<byte>): Fit
    decreases |chunk|
  {
    if chunk == [] then Fits(s)
    else if s == [] then Misfit
    else
      match GetItem(chunk)
      case None => Malformed
      case Some((token, c)) =>
        if TokenFits(token, s) then FitChunk(c, s[Width(token, s)..]) else Misfit
  }

  lemma InRangesSnoc(ranges: seq<Range>, range: Range, r: int)
    ensures InRanges(ranges + [range], r) <==> InRanges(ranges, r) || range.lo <= r <= range.hi
  {
    var all := ranges + [range];
    if InRanges(ranges, r) {
      var k :| 0 <= k < |ranges| && ranges[k].lo <= r <= ranges[k].hi;
      assert all[k] == ranges[k];
    }
    assert all[|ranges|] == range;
  }

  /** The class scanner of matchChunk: reads ranges after the bracket and the optional '!',
      and says whether `r` lies in one of them. */
  method ScanClass(body: seq<byte>, r: int) returns (inside: bool, rest: seq<byte>, err: bool)
    ensures err <==> GetRanges(body, []).None?
    ensures !err ==> rest == GetRanges(body, []).value.1
    ensures !err ==> (inside <==> InRanges(GetRanges(body, []).value.0, r))
  {
    var chunk := body;
    inside, err := false, false;
    var nrange := 0;
    ghost var seen: seq<Range> := [];
    while !(|chunk| > 0 && chunk[0] == CLOSE && nrange > 0)
      invariant GetRanges(body, []) == GetRanges(chunk, seen)
      invariant nrange == |seen|
      invariant inside <==> InRanges(seen, r)
      decreases |chunk|
    {
      var esc := GetEsc(chunk);
      if esc.None? {
        return false, [], true;
      }
      var (lo, c) := esc.value;
      var hi := lo;
      chunk := c;
      if chunk[0] == DASH {
        esc := GetEsc(chunk[1..]);
        if esc.None? {
          return false, [], true;
        }
        hi, chunk := esc.value.0, esc.value.1;
      }
      if lo <= r && r <= hi {
        inside := true;
      }
      InRangesSnoc(seen, Range(lo, hi), r);
      seen := seen + [Range(lo, hi)];
      nrange := nrange + 1;
    }
    rest := chunk[1..];
  }

  method MatchChunk(pattern: seq<byte>, name: seq<byte>) returns (rest: seq<byte>, ok: bool, err: bool)
    ensures FitChunk(pattern, name) == if err then Malformed else if ok then Fits(rest) else Misfit
    ensures !(ok && err)
  {
    var chunk, s := pattern, name;
    while |chunk| > 0
      invariant FitChunk(pattern, name) == FitChunk(chunk, s)
      decreases |chunk|
    {
      if |s| == 0 {
        return [], false, false;
      }
      if chunk[0] == OPEN {
        var d := DecodeRune(s);
        ghost var whole := chunk;
        s := s[d.n..];
        chunk := chunk[1..];
        if |chunk| == 0 {
          return [], false, true;
        }
        var negated := chunk[0] == BANG;
        if negated {
          chunk := chunk[1..];
        }
        assert chunk == if negated then whole[2..] else whole[1..];
        var inside, c, bad := ScanClass(chunk, d.r);
        if bad {
          return [], false, true;
        }
        chunk := c;
        if inside == negated {
          return [], false, false;
        }
      } else if chunk[0] == QUESTION {
        s := s[DecodeRune(s).n..];
        chunk := chunk[1..];
      } else {
        if chunk[0] == BACKSLASH {
          ghost var whole := chunk;
          chunk := chunk[1..];
          if |chunk| == 0 {
            return [], false, true;
          }
          assert GetItem(whole) == Some((Literal(chunk[0]), chunk[1..]));
        }
        if chunk[0] != s[0] {
          return [], false, false;
        }
        s := s[1..];
        chunk := chunk[1..];
      }
    }
    return s, true, false;
  }

  // ---------- fnMatch ----------

  /** The first place at which a chunk is accepted: the front of the name, and after a star every
      later byte position too. The last chunk must use the name up. */
  function Place(chunk: seq<byte>, s: seq<byte>, last: bool, star: bool): Fit
    decreases |s|
  {
    match FitChunk(chunk, s)
    case Malformed => Malformed
    case Fits(t) => if t == [] || !last then Fits(t) else PlaceLater(chunk, s, last, star)
    case Misfit => PlaceLater(chunk, s, last, star)
  }

  function PlaceLater(chunk: seq<byte>, s: seq<byte>, last: bool, star: bool): Fit
    decreases |s|, 0
  {
    if star && s != [] then Place(chunk, s[1..], last, star) else Misfit
  }

  datatype Verdict = Matched | Unmatched | BadPattern

  function Run(pattern: seq<byte>, name: seq<byte>): Verdict
    decreases |pattern|
  {
    if pattern == [] then if name == [] then Matched else Unmatched
    else
      var scan := ScanOf(pattern);
      if scan.star && scan.chunk == [] then Matched
      else
        match Place(scan.chunk, name, scan.rest == [], scan.star)
        case Fits(t) => Run(scan.rest, t)
        case Misfit => Unmatched
        case Malformed => BadPattern
  }

  /** The number of chunks scanChunk cuts a pattern into. */
  function Chunks(pattern: seq<byte>): nat
    decreases |pattern|
  {
    if pattern == [] then 0 else 1 + Chunks(ScanOf(pattern).rest)
  }

  function VerdictOf(matched: bool, err: bool): Verdict {
    if err then BadPattern else if matched then Matched else Unmatched
  }

  lemma {:induction false} FitShrinks(chunk: seq<byte>, s: seq<byte>)
    ensures FitChunk(chunk, s).Fits? ==> |FitChunk(chunk, s).rest| <= |s|
    decreases |chunk|
  {
    if chunk != [] && s != [] && GetItem(chunk).Some? {
      var (token, c) := GetItem(chunk).value;
      if TokenFits(token, s) {
        FitShrinks(c, s[Width(token, s)..]);
      }
    }
  }

  /** The skipping loop of fnMatch, after the chunk was refused at the front of `name`. */
  method SkipAhead(chunk: seq<byte>, name: seq<byte>, last: bool)
    returns (t: seq<byte>, found: bool, err: bool, ghost calls: nat)
    ensures PlaceLater(chunk, name, last, true) == if err then Malformed else if found then Fits(t) else Misfit
    ensures !(found && err)
    ensures calls <= |name|
    ensures found ==> calls + |t| <= |name|
  {
    calls := 0;
    assert name[0..] == name;
    for i := 0 to |name|
      invariant calls == i
      invariant PlaceLater(chunk, name, last, true) == PlaceLater(chunk, name[i..], last, true)
    {
      assert name[i..][1..] == name[i + 1..];
      var rest, ok, e := MatchChunk(chunk, name[i + 1..]);
      calls := calls + 1;
      if ok {
        // the last chunk must have exhausted the name
        if last && |rest| > 0 {
          continue;
        }
        FitShrinks(chunk, name[i + 1..]);
        return rest, true, false, calls;
      }
      if e {
        return [], false, true, calls;
      }
    }
    return [], false, false, calls;
  }

  /** One round of fnMatch: lay the chunk at the front of the name and, after a star, further on. */
  method PlaceChunk(chunk: seq<byte>, name: seq<byte>, last: bool, star: bool)
    returns (t: seq<byte>, ok: bool, err: bool, ghost calls: nat)
    ensures Place(chunk, name, last, star) == if err then Malformed else if ok then Fits(t) else Misfit
    ensures !(ok && err)
    ensures calls <= 1 + |name|
    ensures ok ==> calls + |t| <= 1 + |name|
  {
    t, ok, err := MatchChunk(chunk, name);
    calls := 1;
    FitShrinks(chunk, name);
    // if this is the last chunk, it must have exhausted the name
    if ok && (|t| == 0 || !last) {
      return;
    }
    if err {
      return;
    }
    if star {
      ghost var skips;
      t, ok, err, skips := SkipAhead(chunk, name, last);
      calls := calls + skips;
      return;
    }
    ok := false;
  }

  /** `calls` counts the calls of matchChunk. */
  method FnMatch(patternText: seq<byte>, nameText: seq<byte>)
    returns (matched: bool, err: bool, ghost calls: nat)
    ensures VerdictOf(matched, err) == Run(patternText, nameText)
    ensures !(matched && err)
    ensures calls <= Chunks(patternText) + |nameText|
  {
    var pattern, name := patternText, nameText;
    calls := 0;
    while |pattern| > 0
      invariant Run(patternText, nameText) == Run(pattern, name)
      invariant calls + Chunks(pattern) + |name| <= Chunks(patternText) + |nameText|
      decreases |pattern|
    {
      var star, chunk, rest := ScanChunk(pattern);
      assert ScanOf(pattern) == Scan(star, chunk, rest);
      if star && chunk == [] {
        // a trailing * matches the rest of the name
        return true, false, calls;
      }
      ghost var steps;
      var t, ok, e;
      t, ok, e, steps := PlaceChunk(chunk, name, rest == [], star);
      calls := calls + steps;
      if e {
        return false, true, calls;
      }
      if !ok {
        return false, false, calls;
      }
      pattern, name := rest, t;
    }
    return |name| == 0, false, calls;
  }
}
