/**
 The normal form of request paths. A character stands for one byte. The standard library's
 path.Clean is modelled by what it documents, on the segments between slashes.
 */
module StaticPaths {

  // ------------------------------------------------------------------ segments

  function Split(s: string): (r: seq<string>)
    ensures |r| >= 1
  {
    if s == "" then [""]
    else
      var r := Split(s[1..]);
      if s[0] == '/' then [""] + r else [[s[0]] + r[0]] + r[1..]
  }

  function Join(segs: seq<string>): string {
    if segs == [] then ""
    else if |segs| == 1 then segs[0]
    else segs[0] + "/" + Join(segs[1..])
  }

  predicate Counts(seg: string) {
    seg != "" && seg != "."
  }

  /** The non-empty segments other than ".". */
  function Kept(segs: seq<string>): seq<string> {
    if segs == [] then [] else (if Counts(segs[0]) then [segs[0]] else []) + Kept(segs[1..])
  }

  /** Segments after ".." took back the segment before it. */
  function Resolve(stack: seq<string>, segs: seq<string>, rooted: bool): seq<string>
    decreases |segs|
  {
    if segs == [] then stack
    else if !Counts(segs[0]) then Resolve(stack, segs[1..], rooted)
    else if segs[0] != ".." then Resolve(stack + [segs[0]], segs[1..], rooted)
    else if stack != [] && stack[|stack| - 1] != ".." then Resolve(stack[..|stack| - 1], segs[1..], rooted)
    else Resolve(if rooted then stack else stack + [".."], segs[1..], rooted)
  }

  function Clean(path: string): string {
    var rooted := path != "" && path[0] == '/';
    var segs := Resolve([], Split(path), rooted);
    if rooted then "/" + Join(segs) else if segs == [] then "." else Join(segs)
  }

  // ------------------------------------------------------------------ the normal form

  /** The text before the first `c`. */
  function Before(s: string, c: char): string {
    if s == "" || s[0] == c then "" else [s[0]] + Before(s[1..], c)
  }

  predicate DotsAt(s: string, i: int)
    requires 0 <= i < |s| - 1
  {
    s[i] == '.' && s[i + 1] == '.'
  }

  predicate HasDots(s: string) {
    exists i :: 0 <= i < |s| - 1 && DotsAt(s, i)
  }

  const MAX_PATH: nat := 1024
  const INVALID: string := "<>:\"|?*"
  const NUL: char := '\U{0000}'

  predicate HasInvalid(s: string) {
    exists i :: 0 <= i < |s| && s[i] in INVALID
  }

  /** Without query and fragment. */
  function Bare(requestPath: string): string {
    Before(Before(requestPath, '?'), '#')
  }

  function TrimSlash(s: string): string {
    if s != "" && s[0] == '/' then s[1..] else s
  }

  /** An empty result means that the path is refused. */
  function Sanitize(requestPath: string, defaultFile: string): string {
    var bare := Bare(requestPath);
    if HasDots(bare) then ""
    else if NUL in bare then ""
    else if |bare| > MAX_PATH then ""
    else
      var clean := TrimSlash(Clean(bare));
      if HasDots(clean) then ""
      else if clean == "" || clean == "." then defaultFile
      else if HasInvalid(clean) then ""
      else clean
  }

  /** A ".." takes back the segment before it; at the root there is nothing to take back. */
  lemma DotsTakeBack(stack: seq<string>, x: string, segs: seq<string>, rooted: bool)
    requires Counts(x) && x != ".."
    ensures Resolve(stack, [x, ".."] + segs, rooted) == Resolve(stack, segs, rooted)
    ensures Resolve([], [".."] + segs, true) == Resolve([], segs, true)
  {
    assert ([x, ".."] + segs)[1..] == [".."] + segs;
    assert ([".."] + segs)[1..] == segs;
    assert (stack + [x])[..|stack|] == stack;
  }

  // ------------------------------------------------------------------ what it means

  /** The segments that name a file. */
  function Parts(requestPath: string): seq<string> {
    Kept(Split(Bare(requestPath)))
  }

  predicate Accepted(requestPath: string) {
    var bare := Bare(requestPath);
    !HasDots(bare) && NUL !in bare && |bare| <= MAX_PATH && !HasInvalid(bare)
  }

  predicate NoSlash(segs: seq<string>) {
    forall i :: 0 <= i < |segs| ==> '/' !in segs[i]
  }

  predicate AllCount(segs: seq<string>) {
    forall i :: 0 <= i < |segs| ==> Counts(segs[i])
  }

  predicate NoDots(segs: seq<string>) {
    forall i :: 0 <= i < |segs| ==> !HasDots(segs[i])
  }

  /** Two dots next to each other are the text "..". */
  ghost predicate Contains(s: string, sub: string) {
    exists a, b :: s == a + sub + b
  }

  lemma HasDotsIff(s: string)
    ensures HasDots(s) <==> Contains(s, "..")
  {
    if i :| 0 <= i < |s| - 1 && DotsAt(s, i) {
      assert s == s[..i] + ".." + s[i + 2..];
    }
    if a, b :| s == a + ".." + b {
      assert s[|a|] == '.' && s[|a| + 1] == '.';
      assert DotsAt(s, |a|);
    }
  }

  /** The text before a character is what stands before the first one, or everything. */
  lemma {:induction false} BeforeIs(s: string, c: char)
    ensures Before(s, c) <= s && c !in Before(s, c)
    ensures c in s ==> |Before(s, c)| < |s| && s[|Before(s, c)|] == c
    ensures c !in s ==> Before(s, c) == s
  {
    if s != "" && s[0] != c {
      BeforeIs(s[1..], c);
    }
  }

  /** The bare path is the front of the request up to the first '?' or '#'. */
  lemma BareIs(p: string)
    ensures Bare(p) <= p && '?' !in Bare(p) && '#' !in Bare(p)
    ensures |Bare(p)| < |p| ==> p[|Bare(p)|] == '?' || p[|Bare(p)|] == '#'
  {
    BeforeIs(p, '?');
    BeforeIs(Before(p, '?'), '#');
  }

  lemma {:induction false} JoinSplit(s: string)
    ensures Join(Split(s)) == s
    ensures NoSlash(Split(s)) && Split(s)[0] <= s
  {
    if s != "" {
      JoinSplit(s[1..]);
    }
  }

  lemma {:induction false} SplitFirst(a: string, rest: string)
    requires '/' !in a
    ensures Split(a + "/" + rest) == [a] + Split(rest)
  {
    if a == "" {
      assert a + "/" + rest == ['/'] + rest;
    } else {
      assert (a + "/" + rest)[1..] == a[1..] + "/" + rest;
      SplitFirst(a[1..], rest);
      assert [a[0]] + a[1..] == a;
    }
  }

  lemma {:induction false} SplitOne(a: string)
    requires '/' !in a
    ensures Split(a) == [a]
  {
    if a != "" {
      SplitOne(a[1..]);
      assert [a[0]] + a[1..] == a;
    }
  }

  lemma {:induction false} SplitJoin(segs: seq<string>)
    requires segs != [] && NoSlash(segs)
    ensures Split(Join(segs)) == segs
  {
    if |segs| == 1 {
      SplitOne(segs[0]);
    } else {
      SplitJoin(segs[1..]);
      SplitFirst(segs[0], Join(segs[1..]));
    }
  }

  lemma {:induction false} DotsInside(s: string)
    requires !HasDots(s)
    ensures NoDots(Split(s))
  {
    if s != "" {
      assert !HasDots(s[1..]) by {
        forall i | 0 <= i < |s[1..]| - 1 ensures !DotsAt(s[1..], i) {
          assert !DotsAt(s, i + 1);
        }
      }
      DotsInside(s[1..]);
      JoinSplit(s);
      PrefixDots(Split(s)[0], s);
    }
  }

  lemma PrefixDots(a: string, s: string)
    requires a <= s && !HasDots(s)
    ensures !HasDots(a)
  {
    forall i | 0 <= i < |a| - 1 ensures !DotsAt(a, i) {
      assert !DotsAt(s, i);
    }
  }

  lemma {:induction false} JoinDots(segs: seq<string>)
    requires NoDots(segs)
    ensures !HasDots(Join(segs))
  {
    if |segs| > 1 {
      JoinDots(segs[1..]);
      var a, rest, s := segs[0], Join(segs[1..]), Join(segs);
      forall i | 0 <= i < |s| - 1 ensures !DotsAt(s, i) {
        assert i + 1 < |a| ==> !DotsAt(a, i);
        assert i > |a| ==> !DotsAt(rest, i - |a| - 1);
      }
    }
  }

  lemma {:induction false} KeptIn(segs: seq<string>)
    ensures forall x :: x in Kept(segs) ==> x in segs && Counts(x)
  {
    if segs != [] {
      KeptIn(segs[1..]);
      KeptCons(segs);
    }
  }

  lemma KeptFacts(segs: seq<string>)
    ensures AllCount(Kept(segs))
    ensures NoSlash(segs) ==> NoSlash(Kept(segs))
    ensures NoDots(segs) ==> NoDots(Kept(segs))
  {
    KeptIn(segs);
    var kept := Kept(segs);
    assert forall i :: 0 <= i < |kept| ==> kept[i] in kept;
  }

  lemma {:induction false} KeptAll(segs: seq<string>)
    requires AllCount(segs)
    ensures Kept(segs) == segs
  {
    if segs != [] {
      KeptAll(segs[1..]);
    }
  }

  lemma JoinCons(a: string, rest: seq<string>)
    ensures Join([a] + rest) == if rest == [] then a else a + "/" + Join(rest)
  {
    assert ([a] + rest)[1..] == rest;
  }

  lemma KeptCons(segs: seq<string>)
    requires segs != []
    ensures Counts(segs[0]) ==> Kept(segs) == [segs[0]] + Kept(segs[1..])
    ensures !Counts(segs[0]) ==> Kept(segs) == Kept(segs[1..])
  {}

  lemma {:induction false} KeptIsShorter(segs: seq<string>)
    ensures |Join(Kept(segs))| <= |Join(segs)|
  {
    if segs != [] {
      KeptIsShorter(segs[1..]);
      JoinCons(segs[0], segs[1..]);
      JoinCons(segs[0], Kept(segs[1..]));
      assert [segs[0]] + segs[1..] == segs;
      KeptCons(segs);
    }
  }

  /** With no ".." to take back, path.Clean only drops empty and "." segments. */
  lemma {:induction false} ResolveKept(stack: seq<string>, segs: seq<string>, rooted: bool)
    requires NoDots(segs)
    ensures Resolve(stack, segs, rooted) == stack + Kept(segs)
    decreases |segs|
  {
    if segs != [] {
      var next := if Counts(segs[0]) then stack + [segs[0]] else stack;
      assert segs[0] != ".." by {
        assert !HasDots(segs[0]);
        assert DotsAt("..", 0);
      }
      ResolveKept(next, segs[1..], rooted);
    }
  }

  lemma {:induction false} JoinHead(segs: seq<string>)
    requires segs != [] && AllCount(segs) && NoSlash(segs)
    ensures Join(segs) != "" && Join(segs) != "." && Join(segs)[0] != '/'
  {
    assert Counts(segs[0]) && '/' !in segs[0];
  }

  /** What is left of a path without "..": its parts joined, or nothing. */
  lemma CleanOf(bare: string)
    requires !HasDots(bare)
    ensures var parts := Kept(Split(bare));
            TrimSlash(Clean(bare)) == if parts == [] && (bare == "" || bare[0] != '/') then "." else Join(parts)
  {
    var parts := Kept(Split(bare));
    DotsInside(bare);
    JoinSplit(bare);
    KeptFacts(Split(bare));
    ResolveKept([], Split(bare), bare != "" && bare[0] == '/');
    assert [] + parts == parts;
    if parts != [] {
      JoinHead(parts);
    }
  }

  lemma CleanHasNoDots(bare: string)
    requires !HasDots(bare)
    ensures !HasDots(Join(Kept(Split(bare))))
  {
    DotsInside(bare);
    KeptFacts(Split(bare));
    JoinDots(Kept(Split(bare)));
  }

  lemma {:induction false} CharsOfKept(segs: seq<string>, c: char)
    requires c != '/' && c != '.'
    ensures c in Join(Kept(segs)) <==> c in Join(segs)
  {
    if segs != [] {
      var rest := segs[1..];
      CharsOfKept(rest, c);
      JoinCons(segs[0], rest);
      JoinCons(segs[0], Kept(rest));
      assert [segs[0]] + rest == segs;
      KeptCons(segs);
    }
  }

  lemma InvalidOfKept(segs: seq<string>)
    ensures HasInvalid(Join(Kept(segs))) <==> HasInvalid(Join(segs))
  {
    var a, b := Join(Kept(segs)), Join(segs);
    forall i | 0 <= i < |a| && a[i] in INVALID ensures HasInvalid(b) {
      CharsOfKept(segs, a[i]);
      var j :| 0 <= j < |b| && b[j] == a[i];
      assert b[j] in INVALID;
    }
    forall i | 0 <= i < |b| && b[i] in INVALID ensures HasInvalid(a) {
      CharsOfKept(segs, b[i]);
      var j :| 0 <= j < |a| && a[j] == b[i];
      assert a[j] in INVALID;
    }
  }

  /**
   A path is refused exactly if what precedes query and fragment contains ".." or a bad character or
   is too long; else the result is its parts, joined, or the default file.
   */
  lemma SanitizeIs(p: string, defaultFile: string)
    ensures Sanitize(p, defaultFile) ==
            if !Accepted(p) then "" else if Parts(p) == [] then defaultFile else Join(Parts(p))
    ensures Accepted(p) <==>
            && !Contains(Bare(p), "..") && '\U{0000}' !in Bare(p) && |Bare(p)| <= 1024
            && forall c :: c in Bare(p) ==> c !in ['<', '>', ':', '"', '|', '?', '*']
  {
    HasDotsIff(Bare(p));
    InvalidIff(Bare(p));
    if !HasDots(Bare(p)) {
      SecondCheckNeverFires(p);
      CleanedIs(p);
    }
  }

  lemma SecondCheckNeverFires(p: string)
    requires !HasDots(Bare(p))
    ensures !HasDots(TrimSlash(Clean(Bare(p))))
  {
    CleanOf(Bare(p));
    CleanHasNoDots(Bare(p));
  }

  lemma CleanedIs(p: string)
    requires !HasDots(Bare(p))
    ensures var clean := TrimSlash(Clean(Bare(p)));
            if Parts(p) == [] then (clean == "" || clean == ".") && !HasInvalid(Bare(p))
            else clean == Join(Parts(p)) && clean != "" && clean != "." && (HasInvalid(clean) <==> HasInvalid(Bare(p)))
  {
    CleanOf(Bare(p));
    JoinSplit(Bare(p));
    PartsAreSegments(p);
    InvalidOfKept(Split(Bare(p)));
    if Parts(p) != [] {
      JoinHead(Parts(p));
    }
  }

  lemma InvalidIff(s: string)
    ensures HasInvalid(s) <==> exists c :: c in s && c in ['<', '>', ':', '"', '|', '?', '*']
  {
    assert forall c :: c in INVALID <==> c in ['<', '>', ':', '"', '|', '?', '*'];
    if c :| c in s && c in INVALID {
      var i :| 0 <= i < |s| && s[i] == c;
      assert s[i] in INVALID;
    }
  }

  /** Two accepted paths that name a file get the same result exactly when their parts are the same. */
  lemma SameResultIff(p: string, q: string, defaultFile: string)
    requires Accepted(p) && Accepted(q) && Parts(p) != [] && Parts(q) != []
    ensures Sanitize(p, defaultFile) == Sanitize(q, defaultFile) <==> Parts(p) == Parts(q)
  {
    SanitizeIs(p, defaultFile);
    SanitizeIs(q, defaultFile);
    PartsAreSegments(p);
    PartsAreSegments(q);
    SplitJoin(Parts(p));
    SplitJoin(Parts(q));
  }

  lemma PartsAreSegments(p: string)
    ensures NoSlash(Parts(p)) && AllCount(Parts(p))
    ensures !HasDots(Bare(p)) ==> NoDots(Parts(p))
  {
    JoinSplit(Bare(p));
    KeptFacts(Split(Bare(p)));
    if !HasDots(Bare(p)) {
      DotsInside(Bare(p));
    }
  }

  lemma {:induction false} BeforeFacts(s: string, c: char, d: char)
    ensures c !in Before(s, c) && |Before(s, c)| <= |s|
    ensures d !in s ==> d !in Before(s, c)
    ensures c !in s ==> Before(s, c) == s
  {
    if s != "" && s[0] != c {
      BeforeFacts(s[1..], c, d);
    }
  }

  /** Sanitizing an accepted result again changes nothing. */
  lemma SanitizeTwice(p: string, defaultFile: string)
    requires Sanitize(defaultFile, defaultFile) == defaultFile
    requires Accepted(p)
    ensures Sanitize(Sanitize(p, defaultFile), defaultFile) == Sanitize(p, defaultFile)
  {
    SanitizeIs(p, defaultFile);
    if Parts(p) != [] {
      ResultIsNormal(p);
      SanitizeIs(Join(Parts(p)), defaultFile);
    }
  }

  lemma ResultIsNormal(p: string)
    requires Accepted(p) && Parts(p) != []
    ensures Accepted(Join(Parts(p))) && Parts(Join(Parts(p))) == Parts(p)
  {
    var bare, parts := Bare(p), Parts(p);
    var r := Join(parts);
    PartsAreSegments(p);
    JoinDots(parts);
    BeforeFacts(p, '?', '?');
    BeforeFacts(Before(p, '?'), '#', '?');
    JoinSplit(bare);
    CharsOfKept(Split(bare), '?');
    CharsOfKept(Split(bare), '#');
    CharsOfKept(Split(bare), NUL);
    BeforeFacts(r, '?', '#');
    BeforeFacts(r, '#', '#');
    assert Bare(r) == r;
    KeptIsShorter(Split(bare));
    InvalidOfKept(Split(bare));
    SplitJoin(parts);
    KeptAll(parts);
  }
}
