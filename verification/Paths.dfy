/** Path strings: os.path.normpath, the manifest's prefix test and the adapter's resolution below its
    base directory, on a tree without symbolic links (pathname resolution: section 4.13 of the Base
    Definitions of IEEE Std 1003.1-2017). */
module Paths {
  import opened Base

  // ---------- components ----------

  type Comps = seq<string>

  predicate NoSlash(s: string) {
    forall i | 0 <= i < |s| :: s[i] != '/'
  }

  /** Adding one character in front of a text adds it to the first component, or opens a new one. */
  function Prepend(c: char, cs: Comps): Comps
    requires |cs| >= 1
  {
    if c == '/' then [""] + cs else [[c] + cs[0]] + cs[1..]
  }

  /** str.split('/') */
  function Split(s: string): (cs: Comps)
    ensures |cs| >= 1
    ensures forall i | 0 <= i < |cs| :: NoSlash(cs[i])
  {
    if s == "" then [""] else Prepend(s[0], Split(s[1..]))
  }

  /** '/'.join(...) */
  function Join(cs: Comps): string {
    if cs == [] then ""
    else if |cs| == 1 then cs[0]
    else cs[0] + "/" + Join(cs[1..])
  }

  lemma SplitPlain(s: string)
    requires NoSlash(s)
    ensures Split(s) == [s]
  {
    if s != "" {
      SplitPlain(s[1..]);
      assert [s[0]] + s[1..] == s;
    }
  }

  lemma SplitCons(c: char, s: string)
    ensures Split([c] + s) == Prepend(c, Split(s))
  {
    assert ([c] + s)[1..] == s;
  }

  lemma PrependCat(c: char, a: Comps, b: Comps)
    requires |a| >= 1
    ensures Prepend(c, a + b) == Prepend(c, a) + b
  {
    assert (a + b)[1..] == a[1..] + b;
  }

  lemma {:induction false} SplitAtSlash(x: string, y: string)
    ensures Split(x + "/" + y) == Split(x) + Split(y)
    decreases |x|
  {
    if x == "" {
      assert x + "/" + y == ['/'] + y;
      SplitCons('/', y);
    } else {
      var (c, t) := (x[0], x[1..]);
      assert x + "/" + y == [c] + (t + "/" + y);
      SplitCons(c, t + "/" + y);
      SplitAtSlash(t, y);
      PrependCat(c, Split(t), Split(y));
    }
  }

  /** Splitting undoes joining, for components that are there and contain no slash. */
  lemma {:induction false} SplitJoin(cs: Comps)
    requires cs != [] && forall i | 0 <= i < |cs| :: NoSlash(cs[i])
    ensures Split(Join(cs)) == cs
    decreases |cs|
  {
    SplitPlain(cs[0]);
    if |cs| == 1 {
    } else {
      SplitJoin(cs[1..]);
      SplitAtSlash(cs[0], Join(cs[1..]));
    }
  }

  lemma JoinCons(c: char, cs: Comps)
    requires cs != []
    ensures Join([[c] + cs[0]] + cs[1..]) == [c] + Join(cs)
  {
    assert ([[c] + cs[0]] + cs[1..])[1..] == cs[1..];
  }

  lemma JoinEmpty(cs: Comps)
    requires cs != []
    ensures Join([""] + cs) == "/" + Join(cs)
  {
    assert ([""] + cs)[1..] == cs;
  }

  /** And joining undoes splitting, on every string. */
  lemma {:induction false} JoinSplit(s: string)
    ensures Join(Split(s)) == s
  {
    if s == "" {
    } else {
      JoinSplit(s[1..]);
      if s[0] == '/' {
        JoinEmpty(Split(s[1..]));
      } else {
        JoinCons(s[0], Split(s[1..]));
      }
      assert s == [s[0]] + s[1..];
    }
  }

  lemma {:induction false} JoinCat(a: Comps, b: Comps)
    requires a != [] && b != []
    ensures Join(a + b) == Join(a) + "/" + Join(b)
    decreases |a|
  {
    if |a| == 1 {
      assert (a + b)[1..] == b;
    } else {
      JoinCat(a[1..], b);
      assert (a + b)[1..] == a[1..] + b;
    }
  }

  // ---------- normpath ----------

  predicate Skipped(c: string) {
    c == "" || c == "."
  }

  /** One round of the loop of normpath: what is kept so far and the next component. */
  function NormStep(rooted: bool, kept: Comps, c: string): Comps {
    if Skipped(c) then kept
    else if c != ".." || (!rooted && kept == []) || (kept != [] && kept[|kept| - 1] == "..") then kept + [c]
    else if kept != [] then kept[..|kept| - 1]
    else kept
  }

  function NormLoop(rooted: bool, kept: Comps, cs: Comps): Comps
    decreases |cs|
  {
    if cs == [] then kept else NormLoop(rooted, NormStep(rooted, kept, cs[0]), cs[1..])
  }

  /** How many leading slashes normpath keeps: exactly two stay two, three or more become one. */
  function Slashes(p: string): (k: nat)
    ensures k <= 2
  {
    if !("/" <= p) then 0
    else if "//" <= p && !("///" <= p) then 2
    else 1
  }

  predicate Rooted(p: string) {
    Slashes(p) > 0
  }

  function NormComps(p: string): Comps {
    NormLoop(Rooted(p), [], Split(p))
  }

  function RootText(k: nat): string {
    if k == 0 then "" else if k == 1 then "/" else "//"
  }

  function Render(k: nat, cs: Comps): string {
    var s := RootText(k) + Join(cs);
    if s == "" then "." else s
  }

  function NormPath(p: string): string {
    Render(Slashes(p), NormComps(p))
  }

  // ---------- the shape of a normal form ----------

  /** A component that can survive normalisation. */
  predicate Proper(c: string) {
    NoSlash(c) && !Skipped(c)
  }

  /** Proper components, '..' only at the front, and none at all below a root. */
  ghost predicate Normal(rooted: bool, cs: Comps) {
    && (forall i | 0 <= i < |cs| :: Proper(cs[i]))
    && (forall i, j | 0 <= i < j < |cs| && cs[j] == ".." :: cs[i] == "..")
    && (rooted ==> forall i | 0 <= i < |cs| :: cs[i] != "..")
  }

  lemma StepNormal(rooted: bool, kept: Comps, c: string)
    requires Normal(rooted, kept) && NoSlash(c)
    ensures Normal(rooted, NormStep(rooted, kept, c))
  {
    var out := NormStep(rooted, kept, c);
    if c == ".." && out == kept + [c] {
      forall i | 0 <= i < |kept| ensures kept[i] == ".." && !rooted {
        assert kept[|kept| - 1] == "..";
      }
    }
  }

  lemma {:induction false} LoopNormal(rooted: bool, kept: Comps, cs: Comps)
    requires Normal(rooted, kept) && forall i | 0 <= i < |cs| :: NoSlash(cs[i])
    ensures Normal(rooted, NormLoop(rooted, kept, cs))
    decreases |cs|
  {
    if cs == [] {
    } else {
      StepNormal(rooted, kept, cs[0]);
      LoopNormal(rooted, NormStep(rooted, kept, cs[0]), cs[1..]);
    }
  }

  lemma NormCompsNormal(p: string)
    ensures Normal(Rooted(p), NormComps(p))
  {
    LoopNormal(Rooted(p), [], Split(p));
  }

  /** The loop keeps a normal list as it is. */
  lemma {:induction false} LoopKeepsNormal(rooted: bool, kept: Comps, cs: Comps)
    requires Normal(rooted, kept + cs)
    ensures NormLoop(rooted, kept, cs) == kept + cs
    decreases |cs|
  {
    if cs != [] {
      var all := kept + cs;
      assert all[|kept|] == cs[0] && Proper(all[|kept|]);
      assert kept != [] && cs[0] == ".." ==> all[|kept| - 1] == "..";
      assert NormStep(rooted, kept, cs[0]) == kept + [cs[0]];
      assert (kept + [cs[0]]) + cs[1..] == all;
      LoopKeepsNormal(rooted, kept + [cs[0]], cs[1..]);
    } else {
      assert kept + cs == kept;
    }
  }

  lemma {:induction false} JoinStart(cs: Comps)
    requires cs != [] && Proper(cs[0]) && forall i | 0 <= i < |cs| :: Proper(cs[i])
    ensures Join(cs) != "" && Join(cs)[0] == cs[0][0] && Join(cs)[0] != '/'
    ensures |cs| == 1 ==> Join(cs) != "."
  {
  }

  /** A normal form read back: it has the same root and the same components. */
  lemma NormalFormReadsBack(p: string)
    ensures Slashes(NormPath(p)) == Slashes(p)
    ensures NormComps(NormPath(p)) == NormComps(p)
  {
    NormCompsNormal(p);
    if NormComps(p) != [] {
      ReadBack(Slashes(p), NormComps(p));
    } else if Slashes(p) == 0 {
      SplitPlain(".");
      assert ["."][1..] == [];
    } else {
      RootOnly(Slashes(p));
      assert RootText(Slashes(p)) + "" == RootText(Slashes(p));
    }
  }

  lemma ReadBack(k: nat, cs: Comps)
    requires k <= 2 && cs != [] && Normal(k > 0, cs)
    ensures Slashes(Render(k, cs)) == k
    ensures NormComps(Render(k, cs)) == cs
  {
    JoinStart(cs);
    SplitJoin(cs);
    var j := Join(cs);
    assert [] + cs == cs;
    LoopKeepsNormal(k > 0, [], cs);
    if k == 0 {
      assert "" + j == j;
    } else {
      SlashesOfRooted(k, j);
      SplitRooted(k, j);
      LoopSkipsEmpty(cs);
      LoopSkipsEmpty([""] + cs);
      assert ["", ""] + cs == [""] + ([""] + cs);
    }
  }

  lemma LoopSkipsEmpty(cs: Comps)
    ensures NormLoop(true, [], [""] + cs) == NormLoop(true, [], cs)
  {
    assert ([""] + cs)[1..] == cs;
  }

  lemma RootOnly(k: nat)
    requires 1 <= k <= 2
    ensures Slashes(RootText(k)) == k && NormComps(RootText(k)) == []
  {
    assert "/"[1..] == "" && "//"[1..] == "/";
    assert Split("/") == ["", ""];
    assert Split("//") == ["", "", ""];
    assert ["", "", ""][1..] == ["", ""] && ["", ""][1..] == [""] && [""][1..] == [];
    assert NormLoop(true, [], [""]) == [];
    assert NormLoop(true, [], ["", ""]) == NormLoop(true, [], [""]);
    assert NormLoop(true, [], ["", "", ""]) == NormLoop(true, [], ["", ""]);
  }

  lemma SlashesOfRooted(k: nat, j: string)
    requires 1 <= k <= 2 && j != "" && j[0] != '/'
    ensures Slashes(RootText(k) + j) == k
  {
    var s := RootText(k) + j;
    assert s[k] == j[0];
    assert "/" <= s;
    if k == 1 {
      assert s[1] != "//"[1];
    } else {
      assert "//" <= s;
      assert s[2] != "///"[2];
    }
  }

  lemma SplitRooted(k: nat, j: string)
    requires 1 <= k <= 2
    ensures Split(RootText(k) + j) == (if k == 1 then [""] else ["", ""]) + Split(j)
  {
    SplitCons('/', j);
    if k == 2 {
      SplitCons('/', "/" + j);
      assert "//" + j == "/" + ("/" + j);
      assert [""] + ([""] + Split(j)) == ["", ""] + Split(j);
    }
  }

  /** normpath is idempotent. */
  lemma NormPathIdempotent(p: string)
    ensures NormPath(NormPath(p)) == NormPath(p)
  {
    NormalFormReadsBack(p);
  }

  // ---------- resolution ----------

  /** Following components from a directory: '..' at the root stays at the root. */
  function Walk(dir: Comps, cs: Comps): Comps
    decreases |cs|
  {
    if cs == [] then dir
    else if Skipped(cs[0]) then Walk(dir, cs[1..])
    else if cs[0] == ".." then Walk(if dir == [] then [] else dir[..|dir| - 1], cs[1..])
    else Walk(dir + [cs[0]], cs[1..])
  }

  /** Where (base / path).resolve() leads: an absolute path replaces the base. */
  function Target(base: Comps, p: string): Comps {
    Walk(if Rooted(p) then [] else base, Split(p))
  }

  datatype Resolution = Resolved(target: Comps) | Escapes

  /** _resolve_path: the target has to lie below the base. */
  function ResolvePath(base: Comps, p: string): Resolution {
    var t := Target(base, p);
    if base <= t then Resolved(t) else Escapes
  }

  lemma {:induction false} WalkCat(dir: Comps, a: Comps, b: Comps)
    ensures Walk(dir, a + b) == Walk(Walk(dir, a), b)
    decreases |a|
  {
    if a == [] {
      assert a + b == b;
    } else {
      assert (a + b)[1..] == a[1..] + b;
      if Skipped(a[0]) {
        WalkCat(dir, a[1..], b);
      } else if a[0] == ".." {
        WalkCat(if dir == [] then [] else dir[..|dir| - 1], a[1..], b);
      } else {
        WalkCat(dir + [a[0]], a[1..], b);
      }
    }
  }

  lemma WalkOne(dir: Comps, c: string)
    ensures Walk(dir, [c]) ==
            if Skipped(c) then dir
            else if c == ".." then (if dir == [] then [] else dir[..|dir| - 1])
            else dir + [c]
  {
    assert [c][1..] == [];
  }

  /** One normalisation step is invisible to resolution. */
  lemma StepKeepsWalk(rooted: bool, dir: Comps, kept: Comps, c: string)
    requires Normal(rooted, kept) && NoSlash(c) && (rooted ==> dir == [])
    ensures Walk(dir, NormStep(rooted, kept, c)) == Walk(Walk(dir, kept), [c])
  {
    WalkOne(Walk(dir, kept), c);
    WalkCat(dir, kept, [c]);
    if !Skipped(c) && c == ".." && !(!rooted && kept == []) && !(kept != [] && kept[|kept| - 1] == "..") && kept != [] {
      var front, last := kept[..|kept| - 1], kept[|kept| - 1];
      assert kept == front + [last];
      WalkCat(dir, front, [last]);
      WalkOne(Walk(dir, front), last);
      assert Proper(last);
      assert (Walk(dir, front) + [last])[..|Walk(dir, front)|] == Walk(dir, front);
    }
  }

  lemma {:induction false} LoopKeepsWalk(rooted: bool, dir: Comps, kept: Comps, cs: Comps)
    requires Normal(rooted, kept) && (rooted ==> dir == [])
    requires forall i | 0 <= i < |cs| :: NoSlash(cs[i])
    ensures Walk(dir, NormLoop(rooted, kept, cs)) == Walk(Walk(dir, kept), cs)
    decreases |cs|
  {
    if cs == [] {
    } else {
      StepNormal(rooted, kept, cs[0]);
      StepKeepsWalk(rooted, dir, kept, cs[0]);
      LoopKeepsWalk(rooted, dir, NormStep(rooted, kept, cs[0]), cs[1..]);
      assert [cs[0]] + cs[1..] == cs;
      WalkCat(Walk(dir, kept), [cs[0]], cs[1..]);
    }
  }

  lemma TargetFromComps(base: Comps, p: string)
    ensures Target(base, p) == Walk(if Rooted(p) then [] else base, NormComps(p))
  {
    LoopKeepsWalk(Rooted(p), if Rooted(p) then [] else base, [], Split(p));
  }

  /** Normalisation preserves resolution, from every base and for every path string. */
  lemma NormalisationPreservesResolution(base: Comps, p: string)
    ensures Target(base, NormPath(p)) == Target(base, p)
    ensures ResolvePath(base, NormPath(p)) == ResolvePath(base, p)
  {
    TargetFromComps(base, p);
    TargetFromComps(base, NormPath(p));
    NormalFormReadsBack(p);
  }

  // ---------- the manifest's prefix test ----------

  /** rstrip('/') on a normal form: only a bare root ends in a slash. */
  function RStrip(s: string): string {
    if s != "" && s[|s| - 1] == '/' then RStrip(s[..|s| - 1]) else s
  }

  /** The test on a path and a prefix that are normalised. */
  predicate NormalMatches(normal: string, prefix: string) {
    normal == prefix || RStrip(prefix) + "/" <= normal
  }

  predicate PrefixMatches(p: string, prefix: string) {
    NormalMatches(NormPath(p), NormPath(prefix))
  }

  /** _path_allowed, on the string that is the path parameter. */
  predicate PathAllowed(p: string, prefixes: seq<string>) {
    p != "" && exists i | 0 <= i < |prefixes| :: PrefixMatches(p, prefixes[i])
  }

  /** On component lists without slashes, the string test is the component-prefix test. */
  lemma StringPrefixIsCompPrefix(a: Comps, b: Comps)
    requires a != [] && b != []
    requires forall i | 0 <= i < |a| :: NoSlash(a[i])
    requires forall i | 0 <= i < |b| :: NoSlash(b[i])
    ensures (Join(a) == Join(b) || Join(b) + "/" <= Join(a)) <==> b <= a
  {
    if Join(a) == Join(b) {
      SplitJoin(a);
      SplitJoin(b);
    } else if Join(b) + "/" <= Join(a) {
      StringPrefixSplits(a, b);
    }
    if b < a {
      assert a == b + a[|b|..];
      JoinCat(b, a[|b|..]);
    } else if b <= a {
      assert a == b;
    }
  }

  lemma StringPrefixSplits(a: Comps, b: Comps)
    requires a != [] && b != [] && Join(b) + "/" <= Join(a)
    requires forall i | 0 <= i < |a| :: NoSlash(a[i])
    requires forall i | 0 <= i < |b| :: NoSlash(b[i])
    ensures b <= a
  {
    SplitJoin(a);
    SplitJoin(b);
    PrefixIsSplit(Join(a), Join(b));
  }

  lemma PrefixIsSplit(s: string, x: string)
    requires x + "/" <= s
    ensures Split(x) <= Split(s)
  {
    var front, rest := x + "/", s[|x| + 1..];
    assert s == front + rest;
    SplitAtSlash(x, rest);
  }

  lemma {:induction false} JoinEnd(cs: Comps)
    requires cs != [] && forall i | 0 <= i < |cs| :: Proper(cs[i])
    ensures Join(cs) != "" && Join(cs)[|Join(cs)| - 1] != '/'
    decreases |cs|
  {
    assert Proper(cs[0]);
    if |cs| == 1 {
    } else {
      JoinEnd(cs[1..]);
    }
  }

  /** What rstrip leaves of a normal form. */
  lemma RStripNormal(q: string)
    ensures RStrip(NormPath(q)) == if NormComps(q) == [] && Rooted(q) then "" else NormPath(q)
  {
    NormCompsNormal(q);
    var cs := NormComps(q);
    if cs != [] {
      JoinEnd(cs);
      var n := NormPath(q);
      assert n[|n| - 1] == Join(cs)[|Join(cs)| - 1];
    } else if Rooted(q) {
      assert "/"[..0] == "" && "//"[..1] == "/";
      assert RStrip("/") == "" && RStrip("//") == "";
      assert NormPath(q) == RootText(Slashes(q));
    } else {
      assert NormPath(q) == ".";
    }
  }

  /** What the prefix test means on components. */
  ghost predicate Covers(q: string, p: string) {
    if NormComps(q) == [] then
      if Rooted(q) then Rooted(p) else !Rooted(p) && NormComps(p) == []
    else Slashes(p) == Slashes(q) && NormComps(q) <= NormComps(p)
  }

  lemma RootTextOf(p: string)
    ensures NormComps(p) != [] ==> NormPath(p) == RootText(Slashes(p)) + Join(NormComps(p))
    ensures NormComps(p) == [] && Rooted(p) ==> NormPath(p) == RootText(Slashes(p))
    ensures NormComps(p) == [] && !Rooted(p) ==> NormPath(p) == "."
    ensures Rooted(p) <==> "/" <= NormPath(p)
  {
    NormCompsNormal(p);
    NormalFormReadsBack(p);
    if NormComps(p) != [] {
      JoinStart(NormComps(p));
    }
  }

  /** The test on strings is exactly the test on components, for every path and every prefix, relative
      or absolute. */
  lemma PrefixMatchesIffCovers(p: string, q: string)
    ensures PrefixMatches(p, q) <==> Covers(q, p)
  {
    var (cp, cq) := (NormComps(p), NormComps(q));
    NormCompsNormal(p); NormCompsNormal(q);
    RootTextOf(p); RootTextOf(q);
    RStripNormal(q);
    if cq == [] {
      if Rooted(q) {
        assert "" + "/" == "/";
        EqualForms(p, q);
      } else {
        NoDotPrefix(p);
        EqualForms(p, q);
      }
    } else if Slashes(p) == Slashes(q) {
      var root := RootText(Slashes(q));
      JoinStart(cq);
      if cp == [] {
        assert !(NormPath(q) + "/" <= NormPath(p)) by {
          assert |NormPath(q) + "/"| > |root| + 1;
        }
        EqualForms(p, q);
      } else {
        assert NormPath(q) + "/" == root + (Join(cq) + "/");
        CancelPrefix(root, Join(cq) + "/", Join(cp));
        CancelEqual(root, Join(cq), Join(cp));
        StringPrefixIsCompPrefix(cp, cq);
      }
    } else {
      EqualForms(p, q);
      if NormPath(q) + "/" <= NormPath(p) {
        PrefixKeepsSlashes(p, q);
      }
    }
  }

  lemma CancelPrefix(r: string, x: string, y: string)
    ensures r + x <= r + y <==> x <= y
  {
    assert (r + y)[|r|..] == y && (r + x)[|r|..] == x;
    if r + x <= r + y {
      assert x == (r + x)[|r|..] == (r + y)[..|r| + |x|][|r|..] == y[..|x|];
    }
    if x <= y {
      assert y == x + y[|x|..];
      assert r + y == (r + x) + y[|x|..];
    }
  }

  lemma CancelEqual(r: string, x: string, y: string)
    ensures r + x == r + y <==> x == y
  {
    assert (r + y)[|r|..] == y && (r + x)[|r|..] == x;
  }

  lemma EqualForms(p: string, q: string)
    ensures NormPath(p) == NormPath(q) ==> Slashes(p) == Slashes(q) && NormComps(p) == NormComps(q)
  {
    NormalFormReadsBack(p);
    NormalFormReadsBack(q);
  }

  lemma DotFirst(s: string)
    requires "./" <= s
    ensures Split(s)[0] == "."
  {
    SplitPlain(".");
    PrefixIsSplit(s, ".");
  }

  /** No normal form starts with './'. */
  lemma NoDotPrefix(p: string)
    ensures !("./" <= NormPath(p))
  {
    var cs := NormComps(p);
    RootTextOf(p);
    NormCompsNormal(p);
    if cs != [] && !Rooted(p) {
      SplitJoin(cs);
      assert Proper(cs[0]);
      if "./" <= NormPath(p) {
        DotFirst(NormPath(p));
      }
    }
  }

  lemma PrefixKeepsSlashes(p: string, q: string)
    requires NormComps(q) != [] && NormPath(q) + "/" <= NormPath(p)
    ensures Slashes(p) == Slashes(q)
  {
    NormCompsNormal(q); NormCompsNormal(p);
    RootTextOf(p); RootTextOf(q);
    JoinStart(NormComps(q));
    var (n, m, k) := (NormPath(p), NormPath(q), Slashes(q));
    assert m[k] == Join(NormComps(q))[0];
    assert n[k] == m[k] != '/';
    assert forall i | 0 <= i < k :: m[i] == '/';
    assert forall i | 0 <= i < k :: n[i] == m[i];
    NormalFormReadsBack(p);
    if k == 0 {
      assert !("/" <= n);
    } else {
      assert n == RootText(k) + n[k..] by {
        assert n[..k] == RootText(k);
      }
      SlashesOfRooted(k, n[k..]);
    }
  }

  // ---------- confinement ----------

  /** Relative and without a leading '..'. */
  predicate Inward(q: string) {
    !Rooted(q) && (NormComps(q) == [] || NormComps(q)[0] != "..")
  }

  lemma {:induction false} WalkNames(dir: Comps, cs: Comps)
    requires forall i | 0 <= i < |cs| :: Proper(cs[i]) && cs[i] != ".."
    ensures Walk(dir, cs) == dir + cs
    decreases |cs|
  {
    if cs == [] {
      assert dir + cs == dir;
    } else {
      assert Proper(cs[0]);
      WalkNames(dir + [cs[0]], cs[1..]);
      assert (dir + [cs[0]]) + cs[1..] == dir + cs;
    }
  }

  /** An inward path resolves to its own components below the base. */
  lemma InwardResolves(base: Comps, p: string)
    requires Inward(p)
    ensures ResolvePath(base, p) == Resolved(base + NormComps(p))
  {
    NormCompsNormal(p);
    TargetFromComps(base, p);
    var cs := NormComps(p);
    WalkNames(base, cs);
  }

  /** Path confinement. A path that the manifest allows through an inward prefix is relative, the
      adapter accepts it whatever its base is, and the target lies below that prefix. */
  lemma Confinement(base: Comps, p: string, prefixes: seq<string>, i: nat)
    requires i < |prefixes| && PrefixMatches(p, prefixes[i]) && Inward(prefixes[i])
    ensures !Rooted(p)
    ensures NormComps(prefixes[i]) <= NormComps(p)
    ensures ResolvePath(base, p) ==
            Resolved(base + NormComps(prefixes[i]) + NormComps(p)[|NormComps(prefixes[i])|..])
  {
    var q := prefixes[i];
    PrefixMatchesIffCovers(p, q);
    InwardResolves(base, p);
    var (cp, cq) := (NormComps(p), NormComps(q));
    assert base + cp == base + cq + cp[|cq|..];
  }

  /** With inward prefixes only, everything the manifest allows is confined to one of them. */
  lemma AllowedIsConfined(base: Comps, p: string, prefixes: seq<string>)
    requires PathAllowed(p, prefixes) && forall i | 0 <= i < |prefixes| :: Inward(prefixes[i])
    ensures exists i | 0 <= i < |prefixes| ::
              ResolvePath(base, p).Resolved? && base + NormComps(prefixes[i]) <= ResolvePath(base, p).target
  {
    var i :| 0 <= i < |prefixes| && PrefixMatches(p, prefixes[i]);
    Confinement(base, p, prefixes, i);
  }

  function Letters(n: nat): string {
    seq(n, i => 'n')
  }

  lemma {:induction false} WalkUp(dir: Comps, cs: Comps)
    requires |dir| <= 1 && cs != [] && cs[0] == ".."
    requires dir == [] || forall i | 0 <= i < |cs| :: cs[i] != dir[0]
    ensures var t := Walk(dir, cs); t == [] || dir == [] || t[0] != dir[0]
  {
    var d := if dir == [] then "" else dir[0];
    assert (if dir == [] then [] else dir[..|dir| - 1]) == [];
    WalkAvoids([], cs[1..], d);
  }

  lemma {:induction false} WalkAvoids(dir: Comps, cs: Comps, d: string)
    requires forall i | 0 <= i < |cs| :: cs[i] != d || d == ""
    requires forall i | 0 <= i < |dir| :: dir[i] != d
    ensures forall i | 0 <= i < |Walk(dir, cs)| :: Walk(dir, cs)[i] != d
    decreases |cs|
  {
    if cs == [] {
    } else {
      if Skipped(cs[0]) {
        WalkAvoids(dir, cs[1..], d);
      } else if cs[0] == ".." {
        WalkAvoids(if dir == [] then [] else dir[..|dir| - 1], cs[1..], d);
      } else {
        WalkAvoids(dir + [cs[0]], cs[1..], d);
      }
    }
  }

  function Longest(cs: Comps): (n: nat)
    ensures forall i | 0 <= i < |cs| :: |cs[i]| <= n
  {
    if cs == [] then 0
    else
      var m := Longest(cs[..|cs| - 1]);
      if m < |cs[|cs| - 1]| then |cs[|cs| - 1]| else m
  }

  /** The paths that stay inside whatever the base directory is are exactly the inward ones. */
  lemma AcceptedEverywhereIffInward(p: string)
    ensures (forall base: Comps :: ResolvePath(base, p).Resolved?) <==> Inward(p)
  {
    if Inward(p) {
      forall base: Comps ensures ResolvePath(base, p).Resolved? {
        InwardResolves(base, p);
      }
    } else {
      var cs := NormComps(p);
      var d := Letters(Longest(cs) + 1);
      var base := [d];
      forall i | 0 <= i < |cs| ensures cs[i] != d {
        assert |cs[i]| < |d|;
      }
      TargetFromComps(base, p);
      if Rooted(p) {
        WalkAvoids([], cs, d);
      } else {
        WalkUp(base, cs);
      }
      assert !ResolvePath(base, p).Resolved?;
    }
  }
}
