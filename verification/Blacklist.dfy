/** common/blacklist/blacklist.go: the matcher with its literal-prefix fast path, and the removal
    of blacklisted files from a tree. */
module Blacklist {
  import opened Options
  import opened Utf8
  import opened Texts
  import opened GlobPattern
  import opened GlobMatch
  import opened GlobTheorems
  import opened GlobExact
  import opened GlobMeaning

  // ---------- The matcher ----------

  predicate IsMeta(b: byte) {
    b == STAR || b == OPEN || b == QUESTION || b == BACKSLASH
  }

  datatype Entry = Entry(full: Text, plainPrefix: Text)

  /** The plain prefix is the longest prefix of the pattern free of meta characters. */
  predicate ValidEntry(e: Entry) {
    && e.plainPrefix <= e.full
    && (forall k :: 0 <= k < |e.plainPrefix| ==> !IsMeta(e.plainPrefix[k]))
    && (|e.plainPrefix| < |e.full| ==> IsMeta(e.full[|e.plainPrefix|]))
  }

  predicate ValidMatcher(m: seq<Entry>, patterns: seq<Text>) {
    && |m| == |patterns|
    && (forall k :: 0 <= k < |m| ==> m[k].full == patterns[k] && ValidEntry(m[k]))
  }

  method IndexMeta(s: Text) returns (i: nat)
    ensures i <= |s|
    ensures forall k :: 0 <= k < i ==> !IsMeta(s[k])
    ensures i < |s| ==> IsMeta(s[i])
  {
    i := 0;
    while i < |s| && !IsMeta(s[i])
      invariant 0 <= i <= |s|
      invariant forall k :: 0 <= k < i ==> !IsMeta(s[k])
    {
      i := i + 1;
    }
  }

  /** None of the bytes of *, ?, [ and backslash. */
  predicate IsPlain(t: Text) {
    forall k :: 0 <= k < |t| ==> t[k] != 42 && t[k] != 63 && t[k] != 91 && t[k] != 92
  }

  /** The prefix is the longest one that is plain. */
  predicate LongestPlain(prefix: Text, t: Text) {
    prefix <= t && IsPlain(prefix) && (|prefix| < |t| ==> !IsPlain(t[..|prefix| + 1]))
  }

  lemma EntryIsPlain(e: Entry)
    requires ValidEntry(e)
    ensures LongestPlain(e.plainPrefix, e.full)
  {
    var n := |e.plainPrefix|;
    if n < |e.full| {
      assert e.full[..n + 1][n] == e.full[n];
    }
  }

  method NewMatcher(patterns: seq<Text>) returns (m: seq<Entry>)
    ensures ValidMatcher(m, patterns)
    ensures forall k :: 0 <= k < |m| ==> LongestPlain(m[k].plainPrefix, patterns[k])
  {
    m := [];
    for i := 0 to |patterns|
      invariant ValidMatcher(m, patterns[..i])
    {
      var plainEnd := IndexMeta(patterns[i]);
      m := m + [Entry(patterns[i], patterns[i][..plainEnd])];
    }
    assert patterns[..|patterns|] == patterns;
    forall k | 0 <= k < |m| ensures LongestPlain(m[k].plainPrefix, patterns[k]) {
      EntryIsPlain(m[k]);
    }
  }

  /** The slow path: fnMatch on every pattern in order, until one matches or errs. */
  function SlowMatch(patterns: seq<Text>, path: Text): Verdict {
    if patterns == [] then Unmatched
    else if Run(patterns[0], path) != Unmatched then Run(patterns[0], path)
    else SlowMatch(patterns[1..], path)
  }

  lemma {:induction false} PlainFit(prefix: Text, more: Text, path: Text)
    requires forall k :: 0 <= k < |prefix| ==> !IsMeta(prefix[k])
    requires !(prefix <= path)
    ensures FitChunk(prefix + more, path) == Misfit
  {
    if path != [] && prefix[0] == path[0] {
      var chunk := prefix + more;
      assert chunk[1..] == prefix[1..] + more;
      assert GetItem(chunk) == Some((Literal(prefix[0]), prefix[1..] + more));
      assert !(prefix[1..] <= path[1..]) by {
        assert prefix == [prefix[0]] + prefix[1..] && path == [path[0]] + path[1..];
      }
      PlainFit(prefix[1..], more, path[1..]);
    }
  }

  lemma {:induction false} PlainScan(prefix: Text, more: Text)
    requires forall k :: 0 <= k < |prefix| ==> !IsMeta(prefix[k])
    ensures ScanLen(prefix + more, false) == |prefix| + ScanLen(more, false)
  {
    if prefix == [] {
      assert prefix + more == more;
    } else {
      assert (prefix + more)[1..] == prefix[1..] + more;
      PlainScan(prefix[1..], more);
    }
  }

  /** The first chunk of a pattern with a plain prefix has no star and begins with that prefix. */
  lemma PlainChunk(e: Entry) returns (more: Text)
    requires ValidEntry(e) && e.plainPrefix != []
    ensures !ScanOf(e.full).star && ScanOf(e.full).chunk == e.plainPrefix + more
  {
    var prefix, rest := e.plainPrefix, e.full[|e.plainPrefix|..];
    assert e.full == prefix + rest && e.full[0] == prefix[0];
    assert Stars(e.full) == 0 && e.full[0..] == e.full;
    PlainScan(prefix, rest);
    more := rest[..ScanLen(rest, false)];
    assert (prefix + rest)[..|prefix| + |more|] == prefix + more;
  }

  /** If the path lacks the plain prefix, fnMatch answers (false, nil), even on a bad pattern. */
  lemma PrefixMismatch(e: Entry, path: Text)
    requires ValidEntry(e) && !(e.plainPrefix <= path)
    ensures Run(e.full, path) == Unmatched
  {
    var more := PlainChunk(e);
    PlainFit(e.plainPrefix, more, path);
    assert Place(ScanOf(e.full).chunk, path, ScanOf(e.full).rest == [], false) == Misfit;
  }

  /** The fast path refines the slow path: same boolean, same error, for every pattern list. */
  method Match(m: seq<Entry>, ghost patterns: seq<Text>, relpath: Text) returns (matched: bool, err: bool)
    requires ValidMatcher(m, patterns)
    ensures VerdictOf(matched, err) == SlowMatch(patterns, relpath)
    ensures !(matched && err)
  {
    assert patterns[0..] == patterns;
    for i := 0 to |m|
      invariant SlowMatch(patterns, relpath) == SlowMatch(patterns[i..], relpath)
    {
      assert patterns[i..][1..] == patterns[i + 1..];
      if !(m[i].plainPrefix <= relpath) {
        PrefixMismatch(m[i], relpath);
        continue;
      }
      var ok, e, _ := FnMatch(m[i].full, relpath);
      if e || ok {
        return ok, e;
      }
    }
    return false, false;
  }

  /** All patterns before the k-th are undecided about the path. */
  ghost predicate UndecidedUpTo(patterns: seq<Text>, path: Text, k: nat) {
    k <= |patterns| && forall j :: 0 <= j < k ==> Run(patterns[j], path) == Unmatched
  }

  lemma UndecidedCons(patterns: seq<Text>, path: Text, k: nat)
    requires patterns != [] && Run(patterns[0], path) == Unmatched && UndecidedUpTo(patterns[1..], path, k)
    ensures UndecidedUpTo(patterns, path, k + 1)
  {
    hide Run;
    forall j | 0 <= j < k + 1 ensures Run(patterns[j], path) == Unmatched {
      if j > 0 {
        assert patterns[1..][j - 1] == patterns[j];
      }
    }
  }

  /** The first pattern that decides, or the number of patterns. */
  lemma {:induction false} FirstDecisive(patterns: seq<Text>, path: Text) returns (k: nat)
    ensures UndecidedUpTo(patterns, path, k)
    ensures if k == |patterns| then SlowMatch(patterns, path) == Unmatched
      else Run(patterns[k], path) == SlowMatch(patterns, path) != Unmatched
  {
    hide Run;
    k := 0;
    if patterns != [] && Run(patterns[0], path) == Unmatched {
      k := FirstDecisive(patterns[1..], path);
      UndecidedCons(patterns, path, k);
      k := k + 1;
    }
  }

  /** What a verdict of the slow path says about the list: the first decisive pattern decides. */
  lemma {:induction false} SlowMatchDecides(patterns: seq<Text>, path: Text)
    ensures SlowMatch(patterns, path) == Unmatched <==> UndecidedUpTo(patterns, path, |patterns|)
    ensures SlowMatch(patterns, path) != Unmatched ==>
      exists k: nat :: k < |patterns| && Run(patterns[k], path) == SlowMatch(patterns, path) && UndecidedUpTo(patterns, path, k)
  {
    hide Run, SlowMatch;
    var k := FirstDecisive(patterns, path);
    if k < |patterns| {
      assert Run(patterns[k], path) == SlowMatch(patterns, path) && UndecidedUpTo(patterns, path, k);
    }
  }

  /** On well-formed lists and narrow paths a blacklist matches what any of its patterns accepts. */
  lemma BlacklistMeaning(patterns: seq<Text>, path: Text)
    requires Narrow(path) && forall k :: 0 <= k < |patterns| ==> WellFormed(patterns[k])
    ensures SlowMatch(patterns, path) != BadPattern
    ensures SlowMatch(patterns, path) == Matched <==> exists k :: 0 <= k < |patterns| && Accepts(patterns[k], path)
  {
    forall k | 0 <= k < |patterns|
      ensures Run(patterns[k], path) == if Accepts(patterns[k], path) then Matched else Unmatched
    {
      FnMatchExact(patterns[k], path);
    }
    SlowMatchDecides(patterns, path);
  }

  // ---------- The tree ----------

  type Path = seq<Text>

  datatype Kind = File | Dir

  const SLASH: byte := '/' as int
  const DOT: byte := '.' as int

  function Join(path: Path): Text {
    if path == [] then [] else if |path| == 1 then path[0] else path[0] + [SLASH] + Join(path[1..])
  }

  /** The path of a node relative to the root, as filepath.Rel gives it. */
  function RelPath(path: Path): Text {
    if path == [] then [DOT] else Join(path)
  }

  /** A tree without links: every node but the root hangs in a directory. */
  predicate ParentClosed(nodes: map<Path, Kind>) {
    forall p :: p in nodes && p != [] ==> p[..|p| - 1] in nodes && nodes[p[..|p| - 1]] == Dir
  }

  lemma {:induction false} AncestorsPresent(nodes: map<Path, Kind>, p: Path, k: nat)
    requires ParentClosed(nodes) && p in nodes && k <= |p|
    ensures p[..k] in nodes && (k < |p| ==> nodes[p[..k]] == Dir)
    decreases |p|
  {
    if k == |p| {
      assert p[..k] == p;
    } else {
      var parent := p[..|p| - 1];
      AncestorsPresent(nodes, parent, k);
      assert parent[..k] == p[..k];
      assert k == |p| - 1 ==> p[..k] == parent;
    }
  }

  /** Something at or below `p` cannot be removed. */
  predicate Holds(nodes: map<Path, Kind>, stuck: set<Path>, p: Path) {
    exists q :: q in nodes && q in stuck && p <= q
  }

  function AfterRemoveAll(nodes: map<Path, Kind>, stuck: set<Path>, p: Path): map<Path, Kind> {
    map q | q in nodes && !(p <= q && !Holds(nodes, stuck, q)) :: nodes[q]
  }

  lemma RemovalKeepsTree(nodes: map<Path, Kind>, stuck: set<Path>, p: Path)
    requires ParentClosed(nodes)
    ensures ParentClosed(AfterRemoveAll(nodes, stuck, p))
  {
    var after := AfterRemoveAll(nodes, stuck, p);
    forall q | q in after && q != [] ensures q[..|q| - 1] in after && after[q[..|q| - 1]] == Dir {
      var parent := q[..|q| - 1];
      if p <= parent {
        assert p <= q;
        var r :| r in nodes && r in stuck && q <= r;
        assert parent <= r;
        assert Holds(nodes, stuck, parent);
      }
    }
  }

  /** A directory tree, with the paths on which the file system will fail: those a walk cannot
      read, those whose status cannot be read, and those that cannot be removed. */
  class FileTree {
    var nodes: map<Path, Kind>
    const unreadable: set<Path>
    const unstattable: set<Path>
    const stuck: set<Path>

    constructor (nodes: map<Path, Kind>, unreadable: set<Path>, unstattable: set<Path>, stuck: set<Path>)
      ensures this.nodes == nodes
      ensures this.unreadable == unreadable && this.unstattable == unstattable && this.stuck == stuck
    {
      this.nodes, this.unreadable, this.unstattable, this.stuck := nodes, unreadable, unstattable, stuck;
    }

    /** os.RemoveAll: what hangs below `p` goes, except what is stuck and the way to it. */
    method RemoveAll(p: Path) returns (err: bool)
      requires ParentClosed(nodes)
      modifies `nodes
      ensures ParentClosed(nodes) && nodes == AfterRemoveAll(old(nodes), stuck, p)
      ensures err <==> Holds(old(nodes), stuck, p)
    {
      RemovalKeepsTree(nodes, stuck, p);
      err := exists q :: q in nodes && q in stuck && p <= q;
      nodes := map q | q in nodes && !(p <= q && !Holds(nodes, stuck, q)) :: nodes[q];
    }

    /** os.Remove of a file. */
    method Remove(p: Path) returns (err: bool)
      requires ParentClosed(nodes) && p in nodes && nodes[p] == File
      modifies `nodes
      ensures ParentClosed(nodes) && nodes == if p in stuck then old(nodes) else old(nodes) - {p}
      ensures err <==> p in stuck
    {
      err := p in stuck;
      if !err {
        nodes := nodes - {p};
      }
    }
  }

  predicate Blacklisted(patterns: seq<Text>, p: Path) {
    SlowMatch(patterns, RelPath(p)) == Matched
  }

  /** The path or one of its ancestors is on the blacklist. */
  predicate Doomed(patterns: seq<Text>, p: Path) {
    exists k :: 0 <= k <= |p| && Blacklisted(patterns, p[..k])
  }

  // ---------- Which path a text names ----------

  /** The names in a text, between its slashes (47). */
  function Split(t: Text): (p: Path)
    ensures p != []
  {
    if t == [] then [[]]
    else
      var more := Split(t[1..]);
      if t[0] == 47 then [[]] + more else [[t[0]] + more[0]] + more[1..]
  }

  /** Names as a directory holds them: not empty, without a slash, and neither "." nor "..". */
  predicate ValidPath(p: Path) {
    forall k :: 0 <= k < |p| ==> p[k] != [] && 47 !in p[k] && p[k] != [46] && p[k] != [46, 46]
  }

  lemma {:induction false} SplitName(name: Text, x: Text)
    requires 47 !in name
    ensures Split(name) == [name] && Split(name + ([47] + x)) == [name] + Split(x)
  {
    if name == [] {
      assert [] + ([47] + x) == [47] + x && ([47] + x)[1..] == x;
    } else {
      var tail := name[1..];
      SplitName(tail, x);
      assert (name + ([47] + x))[1..] == tail + ([47] + x);
      assert [name[0]] + tail == name;
    }
  }

  /** Splitting the relative path of a node gives back its path; the root is "." (46). */
  lemma {:induction false} SplitRelPath(p: Path)
    requires forall k :: 0 <= k < |p| ==> 47 !in p[k]
    ensures p != [] ==> Split(RelPath(p)) == p
    ensures RelPath([]) == [46]
  {
    if |p| == 1 {
      SplitName(p[0], []);
    } else if |p| > 1 {
      SplitRelPath(p[1..]);
      SplitName(p[0], Join(p[1..]));
      assert p[0] + [SLASH] + Join(p[1..]) == p[0] + ([47] + Join(p[1..]));
    }
  }

  lemma JoinCons(name: Text, more: Path)
    requires more != []
    ensures Join([name] + more) == name + [47] + Join(more)
  {
    assert ([name] + more)[1..] == more;
  }

  lemma {:induction false} JoinSplit(t: Text)
    ensures Join(Split(t)) == t
  {
    if t != [] {
      var more := Split(t[1..]);
      JoinSplit(t[1..]);
      if t[0] == 47 {
        JoinCons([], more);
        assert [] + [47] + t[1..] == t;
      } else {
        assert more == [more[0]] + more[1..];
        if |more| > 1 {
          JoinCons([t[0]] + more[0], more[1..]);
          JoinCons(more[0], more[1..]);
          assert [t[0]] + more[0] + [47] + Join(more[1..]) == [t[0]] + (more[0] + [47] + Join(more[1..]));
        }
      }
    }
  }

  // ---------- Lists of names without wildcards ----------

  lemma {:induction false} QuoteTakes(t: Text, s: Text, n: nat)
    requires n <= |s|
    ensures Takes(Quote(t), s, n) <==> n == |t| && t <= s
  {
    if t != [] {
      assert Quote(t)[1..] == Quote(t[1..]);
      if s != [] && n > 0 {
        QuoteTakes(t[1..], s[1..], n - 1);
        assert t <= s <==> t[0] == s[0] && t[1..] <= s[1..];
      }
    }
  }

  /** A fully escaped text matches itself and nothing else. */
  lemma QuoteDecides(t: Text, path: Text)
    ensures Run(Print(Quote(t)), path) == if path == t then Matched else Unmatched
  {
    StarlessMeaning(Quote(t));
    NoStarIsExact(Meaning(Quote(t)));
    VerdictMeaning(Quote(t), path);
    QuoteTakes(t, path, |path|);
  }

  function PlainTerms(t: Text): (ts: seq<Term>)
    requires IsPlain(t)
    ensures |ts| == |t| && forall k :: 0 <= k < |t| ==> ts[k] == PlainTerm(t[k])
    ensures Starless(ts)
  {
    if t == [] then [] else [PlainTerm(t[0])] + PlainTerms(t[1..])
  }

  lemma {:induction false} PlainTakes(t: Text, s: Text, n: nat)
    requires IsPlain(t) && n <= |s|
    ensures Print(PlainTerms(t)) == t
    ensures Takes(PlainTerms(t), s, n) <==> n == |t| && t <= s
  {
    if t != [] {
      var ts, more := PlainTerms(t), PlainTerms(t[1..]);
      assert ts == [PlainTerm(t[0])] + more;
      PrintCons(ts, PlainTerm(t[0]), more);
      assert ts[1..] == more;
      PlainTakes(t[1..], if s == [] then s else s[1..], if n == 0 then 0 else n - 1);
      if s != [] && n > 0 {
        assert t <= s <==> t[0] == s[0] && t[1..] <= s[1..];
      }
    }
  }

  /** A text without meta characters matches itself and nothing else. */
  lemma PlainDecides(t: Text, path: Text)
    requires IsPlain(t)
    ensures Run(t, path) == if path == t then Matched else Unmatched
  {
    StarlessMeaning(PlainTerms(t));
    NoStarIsExact(Meaning(PlainTerms(t)));
    VerdictMeaning(PlainTerms(t), path);
    PlainTakes(t, path, |path|);
  }

  /** The patterns are texts without wildcards, each either free of meta characters or fully escaped. */
  predicate Spell(patterns: seq<Text>, texts: seq<Text>) {
    && |patterns| == |texts|
    && forall k :: 0 <= k < |texts| ==>
      patterns[k] == Print(Quote(texts[k])) || (patterns[k] == texts[k] && IsPlain(texts[k]))
  }

  lemma NameMatch(patterns: seq<Text>, texts: seq<Text>, path: Text)
    requires Spell(patterns, texts)
    ensures SlowMatch(patterns, path) == if path in texts then Matched else Unmatched
  {
    hide Run, SlowMatch, Quote, Print;
    forall k | 0 <= k < |texts| ensures Run(patterns[k], path) == if path == texts[k] then Matched else Unmatched {
      QuoteDecides(texts[k], path);
      if IsPlain(texts[k]) {
        PlainDecides(texts[k], path);
      }
    }
    SlowMatchDecides(patterns, path);
  }

  /** The path lies at or below the one that the text names; "." names the root. */
  predicate AtOrBelow(t: Text, p: Path) {
    t == [46] || Split(t) <= p
  }

  lemma NamesAncestor(p: Path, k: nat)
    requires ValidPath(p) && k <= |p|
    ensures AtOrBelow(RelPath(p[..k]), p)
  {
    hide Split, Join;
    var q := p[..k];
    SplitRelPath(q);
    if k > 0 {
      assert forall i :: 0 <= i < k ==> q[i] == p[i];
    }
  }

  lemma AncestorNamed(t: Text, p: Path) returns (k: nat)
    requires AtOrBelow(t, p)
    ensures k <= |p| && RelPath(p[..k]) == t
  {
    hide Split, Join;
    if t == [46] {
      k := 0;
    } else {
      k := |Split(t)|;
      JoinSplit(t);
      assert p[..k] == Split(t);
    }
  }

  /** A list of names dooms what lies at or below the paths they name. */
  lemma NamesDoom(patterns: seq<Text>, texts: seq<Text>, p: Path)
    requires Spell(patterns, texts) && ValidPath(p)
    ensures Doomed(patterns, p) <==> exists i :: 0 <= i < |texts| && AtOrBelow(texts[i], p)
  {
    hide SlowMatch, RelPath, AtOrBelow, Spell;
    if Doomed(patterns, p) {
      var k :| 0 <= k <= |p| && Blacklisted(patterns, p[..k]);
      NameMatch(patterns, texts, RelPath(p[..k]));
      NamesAncestor(p, k);
      var i :| 0 <= i < |texts| && texts[i] == RelPath(p[..k]);
    }
    if i :| 0 <= i < |texts| && AtOrBelow(texts[i], p) {
      var k := AncestorNamed(texts[i], p);
      NameMatch(patterns, texts, RelPath(p[..k]));
      assert Blacklisted(patterns, p[..k]);
    }
  }

  /** What a removal by names leaves. */
  ghost predicate OnlyNamedGone(nodes: map<Path, Kind>, before: map<Path, Kind>, texts: seq<Text>) {
    forall p :: p in nodes <==> p in before && forall i :: 0 <= i < |texts| ==> !AtOrBelow(texts[i], p)
  }

  lemma NamesRemoved(nodes: map<Path, Kind>, before: map<Path, Kind>, patterns: seq<Text>, texts: seq<Text>)
    requires Spell(patterns, texts) && forall p :: p in before ==> ValidPath(p)
    requires forall p :: p in nodes <==> p in before && !Doomed(patterns, p)
    ensures OnlyNamedGone(nodes, before, texts)
  {
    hide Spell, AtOrBelow, Doomed, ValidPath;
    forall p | p in before ensures Doomed(patterns, p) <==> exists i :: 0 <= i < |texts| && AtOrBelow(texts[i], p) {
      NamesDoom(patterns, texts, p);
    }
  }

  /** filepath.Walk with the visitor: every node once, in an order the model leaves open. */
  method CollectMatches(tree: FileTree, m: seq<Entry>, ghost patterns: seq<Text>)
    returns (matches: seq<Path>, total: nat, err: bool)
    requires ValidMatcher(m, patterns)
    // the walk needs a root, everything readable, and no pattern that errs
    ensures err <==>
      || [] !in tree.nodes
      || exists p :: p in tree.nodes && (p in tree.unreadable || SlowMatch(patterns, RelPath(p)) == BadPattern)
    ensures !err ==> total == |tree.nodes|
    ensures !err ==> forall p :: p in matches <==> p in tree.nodes && Blacklisted(patterns, p)
  {
    matches, total, err := [], 0, false;
    if [] !in tree.nodes {
      return [], 0, true;
    }
    var pending := tree.nodes.Keys;
    while pending != {}
      invariant pending <= tree.nodes.Keys
      invariant total + |pending| == |tree.nodes|
      invariant forall p :: p in matches <==> p in tree.nodes && p !in pending && Blacklisted(patterns, p)
      invariant forall p :: p in tree.nodes && p !in pending ==>
        p !in tree.unreadable && SlowMatch(patterns, RelPath(p)) != BadPattern
    {
      var path :| path in pending;
      pending := pending - {path};
      if path in tree.unreadable {
        return matches, total, true;
      }
      total := total + 1;
      var matched, e := Match(m, patterns, RelPath(path));
      if e {
        return matches, total, true;
      }
      if matched {
        matches := matches + [path];
      }
    }
  }

  /** Nothing but doomed paths has gone. */
  predicate OnlyDoomedGone(nodes: map<Path, Kind>, before: map<Path, Kind>, patterns: seq<Text>) {
    && (forall p :: p in nodes ==> p in before && nodes[p] == before[p])
    && (forall p :: p in before && !Doomed(patterns, p) ==> p in nodes)
  }

  lemma DoomedBelow(patterns: seq<Text>, p: Path, q: Path)
    requires Blacklisted(patterns, p) && p <= q
    ensures Doomed(patterns, q)
  {
    assert q[..|p|] == p;
  }

  lemma GoneFurther(after: map<Path, Kind>, mid: map<Path, Kind>, before: map<Path, Kind>, patterns: seq<Text>, p: Path)
    requires OnlyDoomedGone(mid, before, patterns) && Blacklisted(patterns, p)
    requires forall q :: q in after ==> q in mid && after[q] == mid[q]
    requires forall q :: q in mid && !(p <= q) ==> q in after
    ensures OnlyDoomedGone(after, before, patterns)
  {
    forall q | q in before && !Doomed(patterns, q) ensures q in after {
      if p <= q {
        DoomedBelow(patterns, p, q);
      }
    }
  }

  /** One round of the removal loop: a path that is gone already is no error. */
  method RemoveMatch(tree: FileTree, p: Path) returns (err: bool)
    requires ParentClosed(tree.nodes)
    modifies tree`nodes
    ensures ParentClosed(tree.nodes)
    ensures forall q :: q in tree.nodes ==> q in old(tree.nodes) && tree.nodes[q] == old(tree.nodes)[q]
    ensures forall q :: q in old(tree.nodes) && !(p <= q) ==> q in tree.nodes
    ensures !err ==> p !in tree.nodes
    ensures tree.unstattable == tree.stuck == {} ==> !err
  {
    err := false;
    if p in tree.nodes {
      if p in tree.unstattable {
        err := true;
      } else if tree.nodes[p] == Dir {
        err := tree.RemoveAll(p);
      } else {
        err := tree.Remove(p);
      }
    }
  }

  predicate NonePresent(paths: seq<Path>, nodes: map<Path, Kind>) {
    forall p :: p in paths ==> p !in nodes
  }

  lemma OneLess(after: map<Path, Kind>, mid: map<Path, Kind>, paths: seq<Path>, i: nat)
    requires i < |paths| && NonePresent(paths[..i], mid) && paths[i] !in after
    requires forall q :: q in after ==> q in mid
    ensures NonePresent(paths[..i + 1], after)
  {
    assert paths[..i + 1] == paths[..i] + [paths[i]];
  }

  /** The removal loop: directories removed earlier may have taken later matches with them. */
  method RemoveMatches(tree: FileTree, matches: seq<Path>, ghost patterns: seq<Text>) returns (err: bool)
    requires ParentClosed(tree.nodes)
    requires forall p :: p in matches ==> p in tree.nodes && Blacklisted(patterns, p)
    modifies tree`nodes
    ensures ParentClosed(tree.nodes) && OnlyDoomedGone(tree.nodes, old(tree.nodes), patterns)
    ensures !err ==> NonePresent(matches, tree.nodes)
    ensures tree.unstattable == tree.stuck == {} ==> !err
  {
    ghost var before := tree.nodes;
    err := false;
    for i := 0 to |matches|
      invariant ParentClosed(tree.nodes) && OnlyDoomedGone(tree.nodes, before, patterns)
      invariant NonePresent(matches[..i], tree.nodes)
    {
      ghost var mid := tree.nodes;
      var e := RemoveMatch(tree, matches[i]);
      GoneFurther(tree.nodes, mid, before, patterns, matches[i]);
      if e {
        return true;
      }
      OneLess(tree.nodes, mid, matches, i);
    }
    assert matches[..|matches|] == matches;
  }

  datatype Config = Config(remove: bool, blacklist: seq<Text>)

  /** RemoveBlacklistedFiles, given whether the yaml file exists and what parsing it yields. */
  method RemoveBlacklistedFiles(tree: FileTree, yamlExists: bool, parsed: Option<Config>) returns (err: bool)
    requires ParentClosed(tree.nodes)
    modifies tree`nodes
    ensures ParentClosed(tree.nodes)
    ensures !yamlExists ==> !err && tree.nodes == old(tree.nodes)
    ensures yamlExists && parsed.None? ==> err && tree.nodes == old(tree.nodes)
    ensures yamlExists && parsed.Some? && (!parsed.value.remove || parsed.value.blacklist == []) ==>
      !err && tree.nodes == old(tree.nodes)
    ensures yamlExists && parsed.Some? && parsed.value.remove && parsed.value.blacklist != [] ==>
      var patterns := parsed.value.blacklist;
      var walkFails := [] !in old(tree.nodes)
        || exists p :: p in old(tree.nodes) && (p in tree.unreadable || SlowMatch(patterns, RelPath(p)) == BadPattern);
      // a walk or match error leaves the tree as it was
      && (walkFails ==> err && tree.nodes == old(tree.nodes))
      // even a failed removal touches doomed paths only
      && OnlyDoomedGone(tree.nodes, old(tree.nodes), patterns)
      // success leaves exactly the paths with no blacklisted ancestor-or-self
      && (!err ==> forall p :: p in tree.nodes <==> p in old(tree.nodes) && !Doomed(patterns, p))
      && (!walkFails && tree.unstattable == tree.stuck == {} ==> !err)
      // on a list of names: all but what lies at or below the paths they name
      && (!err && (forall p :: p in old(tree.nodes) ==> ValidPath(p)) ==>
            forall texts :: Spell(patterns, texts) ==> OnlyNamedGone(tree.nodes, old(tree.nodes), texts))
  {
    if !yamlExists {
      return false;
    }
    if parsed.None? {
      return true;
    }
    var config := parsed.value;
    if !config.remove || |config.blacklist| == 0 {
      return false;
    }
    ghost var before := tree.nodes;
    var m := NewMatcher(config.blacklist);
    var matches, total, e := CollectMatches(tree, m, config.blacklist);
    if e {
      return true;
    }
    err := RemoveMatches(tree, matches, config.blacklist);
    if !err {
      forall p | p in before && Doomed(config.blacklist, p) ensures p !in tree.nodes {
        var k :| 0 <= k <= |p| && Blacklisted(config.blacklist, p[..k]);
        AncestorsPresent(before, p, k);
        if p in tree.nodes {
          AncestorsPresent(tree.nodes, p, k);
        }
      }
      if forall p :: p in before ==> ValidPath(p) {
        forall texts | Spell(config.blacklist, texts) ensures OnlyNamedGone(tree.nodes, before, texts) {
          NamesRemoved(tree.nodes, before, config.blacklist, texts);
        }
      }
    }
  }
}
