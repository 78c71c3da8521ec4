/** Choosing names and backup folders for new configurations: numbered until both are free. */
module UniqueConfigs {
  import opened Names
  import opened Ordering
  import opened Format

  // ---- decimal numbers ----

  function Digit(n: nat): (c: char)
    requires n < 10
    ensures '0' <= c <= '9' && LowerChar(c) == c && !IsInvalid(c) && c != '.'
  {
    ('0' as int + n) as char
  }

  function Decimal(n: nat): (s: string)
    ensures s != "" && forall i | 0 <= i < |s| :: '0' <= s[i] <= '9'
    ensures |s| == 1 <==> n < 10
  {
    if n < 10 then [Digit(n)] else Decimal(n / 10) + [Digit(n % 10)]
  }

  function Value(s: string): int
  {
    if s == "" then 0 else 10 * Value(s[..|s| - 1]) + (s[|s| - 1] as int - '0' as int)
  }

  /** Decimal numbers read back as what they say. */
  lemma {:induction false} DecimalReads(n: nat)
    ensures Value(Decimal(n)) == n
  {
    var s := Decimal(n);
    assert s[|s| - 1] as int - '0' as int == n % 10;
    if n >= 10 {
      assert s[..|s| - 1] == Decimal(n / 10);
      DecimalReads(n / 10);
    } else {
      assert s[..|s| - 1] == "";
    }
  }

  lemma DecimalInjective(m: nat, n: nat)
    requires Decimal(m) == Decimal(n)
    ensures m == n
  {
    DecimalReads(m);
    DecimalReads(n);
  }

  function Suffix(n: nat): string { " (" + Decimal(n) + ")" }

  lemma SuffixShape(n: nat)
    ensures |Suffix(n)| >= 4 && Suffix(n)[0] == ' ' && Suffix(n)[|Suffix(n)| - 1] == ')'
    ensures forall i | 0 <= i < |Suffix(n)| :: !IsInvalid(Suffix(n)[i]) && Suffix(n)[i] != '.'
    ensures Lower(Suffix(n)) == Suffix(n)
  {
    var s := Suffix(n);
    forall i | 0 <= i < |s| ensures !IsInvalid(s[i]) && s[i] != '.' && LowerChar(s[i]) == s[i] {
      if 2 <= i < |s| - 1 { assert s[i] == Decimal(n)[i - 2]; }
    }
  }

  lemma SuffixInjective(m: nat, n: nat)
    requires Suffix(m) == Suffix(n)
    ensures m == n
  {
    assert Suffix(m)[2..|Suffix(m)| - 1] == Decimal(m) && Suffix(n)[2..|Suffix(n)| - 1] == Decimal(n);
    DecimalInjective(m, n);
  }

  // ---- candidates ----

  function CandidateName(base: string, n: nat): string
  {
    if n == 1 then base else base + Suffix(n)
  }

  function SegmentFor(name: string): string
  {
    if Sanitized(name) == "" then "Minecraft" else Sanitized(name)
  }

  /** Paths are compared without letter case on Windows only; `child` stands for joining the root with a segment. */
  datatype Place = Place(root: string, windows: bool, existing: set<string>)
  {
    function Child(segment: string): string { root + "/" + segment }

    function Key(path: string): string { if windows then Lower(path) else path }
  }

  datatype Draft = Draft(name: string, backupPath: string, rest: string)

  datatype Existing = Existing(name: string, backupPath: string)

  function Numbered(source: Draft, place: Place, n: nat): Draft
  {
    var name := CandidateName(BaseName(source), n);
    source.(name := name, backupPath := if place.root == "" then "" else place.Child(SegmentFor(name)))
  }

  function BaseName(source: Draft): string
  {
    if source.name == "" || Sanitized(source.name) == "" then "Minecraft" else source.name
  }

  function NameKeyAt(source: Draft, n: nat): string { Lower(CandidateName(BaseName(source), n)) }

  function SegmentAt(source: Draft, n: nat): string { SegmentFor(CandidateName(BaseName(source), n)) }

  function PathKeyAt(source: Draft, place: Place, n: nat): string { place.Key(place.Child(SegmentAt(source, n))) }

  /** A candidate may be taken: its name is new, and so is its folder, to the configurations and on disk. */
  predicate Free(source: Draft, place: Place, names: set<string>, paths: set<string>, n: nat)
  {
    && NameKeyAt(source, n) !in names
    && (place.root != "" ==> PathKeyAt(source, place, n) !in paths && SegmentAt(source, n) !in place.existing)
  }

  // ---- sanitising a numbered name keeps its number ----

  lemma LowerConcat(a: string, b: string)
    ensures Lower(a + b) == Lower(a) + Lower(b)
  {
  }

  lemma {:induction false} TrimLeftConcat(a: string, b: string)
    requires TrimLeft(a) != ""
    ensures TrimLeft(a + b) == TrimLeft(a) + b
  {
    if IsSpace(a[0]) {
      assert (a + b)[1..] == a[1..] + b;
      TrimLeftConcat(a[1..], b);
    }
  }

  lemma {:induction false} BeforeDotConcat(a: string, b: string)
    requires '.' !in b
    ensures BeforeDot(a + b) == if '.' in a then BeforeDot(a) else a + b
  {
    if a == "" {
      assert a + b == b;
      BeforeDotOf(b, "");
      assert b + "" == b;
    } else {
      assert (a + b)[1..] == a[1..] + b && a == [a[0]] + a[1..];
      if a[0] != '.' { BeforeDotConcat(a[1..], b); }
    }
  }

  /** What sanitising leaves of a base that gets a number. */
  function Stem(base: string): string { StemOf(Underscored(TrimLeft(base))) }

  function StemOf(t: string): string
  {
    if '.' in t && IsDeviceStem(Lower(StripEnd(BeforeDot(t)))) then BeforeDot(t) + "_" + t[|BeforeDot(t)|..] else t
  }

  lemma EndsInParenthesis(stem: string)
    requires stem != "" && stem[|stem| - 1] == ')'
    ensures !IsDeviceStem(stem)
  {
    assert "con"[2] == 'n' && "prn"[2] == 'n' && "aux"[2] == 'x' && "nul"[2] == 'l';
    assert "conin$"[5] == '$' && "conout$"[6] == '$';
  }

  lemma NumberedTrims(base: string, n: nat)
    requires TrimLeft(base) != ""
    ensures StripEnd(Underscored(Trim(base + Suffix(n)))) == Underscored(TrimLeft(base)) + Suffix(n)
  {
    var s, t := Suffix(n), TrimLeft(base);
    SuffixShape(n);
    TrimLeftConcat(base, s);
    assert (t + s)[|t + s| - 1] == ')';
    assert Trim(base + s) == t + s;
    UnderscoredConcat(t, s);
    assert (Underscored(t) + s)[|t + s| - 1] == ')';
  }

  lemma UnderscoredConcat(a: string, b: string)
    requires forall i | 0 <= i < |b| :: !IsInvalid(b[i])
    ensures Underscored(a + b) == Underscored(a) + b
  {
  }

  lemma NumberedKeepsEnds(t: string, n: nat)
    requires t != "" && !IsSpace(t[0])
    ensures Trim(t + Suffix(n)) == t + Suffix(n) && StripEnd(t + Suffix(n)) == t + Suffix(n)
    ensures BeforeDot(t + Suffix(n)) == if '.' in t then BeforeDot(t) else t + Suffix(n)
  {
    var s := Suffix(n);
    var u := t + s;
    SuffixShape(n);
    assert u[|u| - 1] == ')' && u[0] == t[0];
    forall i | 0 <= i < |s| ensures s[i] != '.' { }
    BeforeDotConcat(t, s);
  }

  lemma NumberedIsNoDevice(t: string, n: nat)
    ensures !IsDeviceStem(Lower(t + Suffix(n)))
  {
    SuffixShape(n);
    LowerConcat(t, Suffix(n));
    EndsInParenthesis(Lower(t + Suffix(n)));
  }

  lemma NumberedReserved(t: string, n: nat)
    requires t != "" && !IsSpace(t[0])
    ensures IsReservedDeviceName(t + Suffix(n)) <==> '.' in t && IsDeviceStem(Lower(StripEnd(BeforeDot(t))))
    ensures BeforeDot(t + Suffix(n)) == if '.' in t then BeforeDot(t) else t + Suffix(n)
  {
    NumberedKeepsEnds(t, n);
    NumberedIsNoDevice(t, n);
  }

  lemma RemapNumbered(t: string, n: nat)
    requires t != "" && !IsSpace(t[0])
    ensures RemapReservedDeviceName(t + Suffix(n)) == StemOf(t) + Suffix(n)
  {
    NumberedReserved(t, n);
    var s, p := Suffix(n), BeforeDot(t);
    if '.' in t { InsertedBefore(p, t, s); }
  }

  lemma InsertedBefore(p: string, t: string, s: string)
    requires p <= t
    ensures p + "_" + (t + s)[|p|..] == p + "_" + t[|p|..] + s
  {
    assert (t + s)[|p|..] == t[|p|..] + s;
  }

  /** The number survives sanitising. */
  lemma SanitizedNumbered(base: string, n: nat)
    requires TrimLeft(base) != ""
    ensures Sanitized(base + Suffix(n)) == Stem(base) + Suffix(n)
  {
    TrimLeftFixed(base);
    NumberedTrims(base, n);
    RemapNumbered(Underscored(TrimLeft(base)), n);
  }

  lemma BlankSanitizes(s: string)
    ensures TrimLeft(s) == "" ==> Sanitized(s) == ""
  {
    if TrimLeft(s) == "" {
      assert Trim(s) == "" && Underscored("") == "";
      assert Lower("") == "";
    }
  }

  lemma BaseSolid(source: Draft)
    ensures TrimLeft(BaseName(source)) != "" && Sanitized(BaseName(source)) != ""
  {
    MinecraftStays();
    BlankSanitizes(BaseName(source));
  }

  lemma MinecraftStays()
    ensures TrimLeft("Minecraft") != "" && Sanitized("Minecraft") != ""
  {
    var s := "Minecraft";
    assert s[0] == 'M' && s[8] == 't';
    assert Trim(s) == s && Underscored(s)[8] == 't';
    assert StripEnd(Underscored(s)) != "";
  }

  lemma SanitizedLength(base: string)
    requires TrimLeft(base) != ""
    ensures |Sanitized(base)| <= |Stem(base)| + 1
  {
    TrimRightPrefix(TrimLeft(base));
  }

  /** Candidates with different numbers differ in their name key, their folder and their folder's key. */
  lemma CandidatesDiffer(source: Draft, place: Place, m: nat, n: nat)
    requires 1 <= m < n
    ensures var a, b := Numbered(source, place, m), Numbered(source, place, n);
            Lower(a.name) != Lower(b.name) && SegmentFor(a.name) != SegmentFor(b.name)
            && (place.root != "" ==> place.Key(a.backupPath) != place.Key(b.backupPath))
  {
    var base := BaseName(source);
    BaseSolid(source);
    SegmentsDiffer(base, m, n);
    NamesDiffer(base, m, n);
    if place.root != "" {
      ChildrenDiffer(place, SegmentFor(CandidateName(base, m)), SegmentFor(CandidateName(base, n)));
    }
  }

  lemma NamesDiffer(base: string, m: nat, n: nat)
    requires 1 <= m < n
    ensures Lower(CandidateName(base, m)) != Lower(CandidateName(base, n))
  {
    SuffixesDiffer(base, m, n);
    SuffixShape(n);
  }

  lemma SuffixesDiffer(front: string, m: nat, n: nat)
    requires m < n
    ensures Lower(front + Suffix(m)) != Lower(front + Suffix(n))
  {
    LowerConcat(front, Suffix(m));
    LowerConcat(front, Suffix(n));
    SuffixShape(m);
    SuffixShape(n);
    if Lower(front + Suffix(m)) == Lower(front + Suffix(n)) {
      assert Suffix(m) == (Lower(front) + Suffix(m))[|front|..] == (Lower(front) + Suffix(n))[|front|..] == Suffix(n);
      SuffixInjective(m, n);
    }
  }

  lemma SegmentsDiffer(base: string, m: nat, n: nat)
    requires 1 <= m < n && TrimLeft(base) != "" && Sanitized(base) != ""
    ensures Lower(SegmentFor(CandidateName(base, m))) != Lower(SegmentFor(CandidateName(base, n)))
  {
    SanitizedNumbered(base, n);
    SuffixShape(n);
    if m == 1 {
      SanitizedLength(base);
    } else {
      SanitizedNumbered(base, m);
      SuffixShape(m);
      SuffixesDiffer(Stem(base), m, n);
    }
  }

  lemma JoinInjective(front: string, a: string, b: string)
    ensures front + a == front + b ==> a == b
  {
    assert a == (front + a)[|front|..] && b == (front + b)[|front|..];
  }

  lemma ChildrenDiffer(place: Place, a: string, b: string)
    requires Lower(a) != Lower(b)
    ensures place.Key(place.Child(a)) != place.Key(place.Child(b))
  {
    var front := place.root + "/";
    LowerConcat(front, a);
    LowerConcat(front, b);
    JoinInjective(front, a, b);
    JoinInjective(Lower(front), Lower(a), Lower(b));
  }

  // ---- the search ----

  ghost predicate NamesBehind(source: Draft, keys: set<string>, n: nat)
  {
    forall k: nat | k >= n :: NameKeyAt(source, k) !in keys
  }

  ghost predicate SegmentsBehind(source: Draft, segments: set<string>, n: nat)
  {
    forall k: nat | k >= n :: SegmentAt(source, k) !in segments
  }

  ghost predicate PathsBehind(source: Draft, place: Place, keys: set<string>, n: nat)
  {
    forall k: nat | k >= n :: PathKeyAt(source, place, k) !in keys
  }

  /** What rejected the numbers below n: each one claims a taken name, folder key or folder of its own. */
  ghost predicate Rejected(source: Draft, place: Place, names: set<string>, paths: set<string>, n: nat,
                           byName: set<string>, byPath: set<string>, byDisk: set<string>)
  {
    && byName <= names && byPath <= paths && byDisk <= place.existing
    && |byName| + |byPath| + |byDisk| == n - 1
    && NamesBehind(source, byName, n) && PathsBehind(source, place, byPath, n) && SegmentsBehind(source, byDisk, n)
  }

  lemma AnotherName(source: Draft, place: Place, keys: set<string>, n: nat)
    requires n >= 1 && NamesBehind(source, keys, n)
    ensures NamesBehind(source, keys + {NameKeyAt(source, n)}, n + 1)
  {
    forall k: nat | k >= n + 1 ensures NameKeyAt(source, k) != NameKeyAt(source, n) { CandidatesDiffer(source, place, n, k); }
  }

  lemma AnotherSegment(source: Draft, place: Place, segments: set<string>, n: nat)
    requires n >= 1 && SegmentsBehind(source, segments, n)
    ensures SegmentsBehind(source, segments + {SegmentAt(source, n)}, n + 1)
  {
    forall k: nat | k >= n + 1 ensures SegmentAt(source, k) != SegmentAt(source, n) { CandidatesDiffer(source, place, n, k); }
  }

  lemma AnotherPath(source: Draft, place: Place, keys: set<string>, n: nat)
    requires n >= 1 && place.root != "" && PathsBehind(source, place, keys, n)
    ensures PathsBehind(source, place, keys + {PathKeyAt(source, place, n)}, n + 1)
  {
    forall k: nat | k >= n + 1 ensures PathKeyAt(source, place, k) != PathKeyAt(source, place, n) {
      CandidatesDiffer(source, place, n, k);
    }
  }

  lemma RejectedBound(small: set<string>, large: set<string>)
    requires small <= large
    ensures |small| <= |large|
  {
    assert small + (large - small) == large;
  }

  lemma Later(source: Draft, place: Place, names: set<string>, paths: set<string>, segments: set<string>, n: nat)
    ensures NamesBehind(source, names, n) ==> NamesBehind(source, names, n + 1)
    ensures PathsBehind(source, place, paths, n) ==> PathsBehind(source, place, paths, n + 1)
    ensures SegmentsBehind(source, segments, n) ==> SegmentsBehind(source, segments, n + 1)
  {
  }

  lemma Grow(keys: set<string>, all: set<string>, key: string)
    requires keys <= all && key in all && key !in keys
    ensures keys + {key} <= all && |keys + {key}| == |keys| + 1
  {
  }

  lemma RejectByName(source: Draft, place: Place, names: set<string>, paths: set<string>, n: nat,
                     byName: set<string>, byPath: set<string>, byDisk: set<string>)
    requires n >= 1 && Rejected(source, place, names, paths, n, byName, byPath, byDisk)
    requires NameKeyAt(source, n) in names
    ensures Rejected(source, place, names, paths, n + 1, byName + {NameKeyAt(source, n)}, byPath, byDisk)
  {
    AnotherName(source, place, byName, n);
    Grow(byName, names, NameKeyAt(source, n));
    Later(source, place, byName, byPath, byDisk, n);
  }

  lemma RejectByPath(source: Draft, place: Place, names: set<string>, paths: set<string>, n: nat,
                     byName: set<string>, byPath: set<string>, byDisk: set<string>)
    requires n >= 1 && Rejected(source, place, names, paths, n, byName, byPath, byDisk)
    requires place.root != "" && PathKeyAt(source, place, n) in paths
    ensures Rejected(source, place, names, paths, n + 1, byName, byPath + {PathKeyAt(source, place, n)}, byDisk)
  {
    AnotherPath(source, place, byPath, n);
    Grow(byPath, paths, PathKeyAt(source, place, n));
    Later(source, place, byName, byPath, byDisk, n);
  }

  lemma RejectByDisk(source: Draft, place: Place, names: set<string>, paths: set<string>, n: nat,
                     byName: set<string>, byPath: set<string>, byDisk: set<string>)
    requires n >= 1 && Rejected(source, place, names, paths, n, byName, byPath, byDisk)
    requires SegmentAt(source, n) in place.existing
    ensures Rejected(source, place, names, paths, n + 1, byName, byPath, byDisk + {SegmentAt(source, n)})
  {
    AnotherSegment(source, place, byDisk, n);
    Grow(byDisk, place.existing, SegmentAt(source, n));
    Later(source, place, byName, byPath, byDisk, n);
  }

  lemma RejectedLimit(source: Draft, place: Place, names: set<string>, paths: set<string>, n: nat,
                      byName: set<string>, byPath: set<string>, byDisk: set<string>)
    requires Rejected(source, place, names, paths, n, byName, byPath, byDisk)
    ensures n <= |names| + |paths| + |place.existing| + 1
  {
    RejectedBound(byName, names);
    RejectedBound(byPath, paths);
    RejectedBound(byDisk, place.existing);
  }

  lemma RejectOne(source: Draft, place: Place, names: set<string>, paths: set<string>, n: nat,
                  byName: set<string>, byPath: set<string>, byDisk: set<string>)
    returns (name: set<string>, path: set<string>, disk: set<string>)
    requires n >= 1 && Rejected(source, place, names, paths, n, byName, byPath, byDisk)
    requires !Free(source, place, names, paths, n)
    ensures Rejected(source, place, names, paths, n + 1, name, path, disk)
    ensures n <= |names| + |paths| + |place.existing|
  {
    name, path, disk := byName, byPath, byDisk;
    if NameKeyAt(source, n) in names {
      RejectByName(source, place, names, paths, n, byName, byPath, byDisk);
      name := byName + {NameKeyAt(source, n)};
    } else if PathKeyAt(source, place, n) in paths {
      RejectByPath(source, place, names, paths, n, byName, byPath, byDisk);
      path := byPath + {PathKeyAt(source, place, n)};
    } else {
      RejectByDisk(source, place, names, paths, n, byName, byPath, byDisk);
      disk := byDisk + {SegmentAt(source, n)};
    }
    RejectedLimit(source, place, names, paths, n + 1, name, path, disk);
  }

  /** The number search has no bound of its own; it ends because only finitely many names and folders are taken. */
  method FirstFree(source: Draft, place: Place, names: set<string>, paths: set<string>) returns (n: nat)
    ensures 1 <= n <= |names| + |paths| + |place.existing| + 1
    ensures Free(source, place, names, paths, n)
    ensures forall k | 1 <= k < n :: !Free(source, place, names, paths, k)
  {
    n := 1;
    ghost var byName, byPath, byDisk: set<string> := {}, {}, {};
    while !Free(source, place, names, paths, n)
      invariant n >= 1 && Rejected(source, place, names, paths, n, byName, byPath, byDisk)
      invariant forall k | 1 <= k < n :: !Free(source, place, names, paths, k)
      invariant n <= |names| + |paths| + |place.existing| + 1
      decreases |names| + |paths| + |place.existing| + 1 - n
    {
      byName, byPath, byDisk := RejectOne(source, place, names, paths, n, byName, byPath, byDisk);
      n := n + 1;
    }
  }

  function NameKeys(existing: seq<Existing>, resolved: seq<Draft>): set<string>
  {
    (set e | e in existing :: Lower(e.name)) + (set d | d in resolved :: Lower(d.name))
  }

  function PathKeys(place: Place, existing: seq<Existing>, resolved: seq<Draft>): set<string>
  {
    (set e | e in existing && e.backupPath != "" :: place.Key(e.backupPath))
    + (set d | d in resolved && d.backupPath != "" :: place.Key(d.backupPath))
  }

  /** The result for one draft, given the ones before it: the lowest free number. */
  ghost predicate Resolves(source: Draft, r: Draft, place: Place, existing: seq<Existing>, before: seq<Draft>)
  {
    var names, paths := NameKeys(existing, before), PathKeys(place, existing, before);
    exists n: nat :: n >= 1 && r == Numbered(source, place, n) && Free(source, place, names, paths, n)
      && forall k | 1 <= k < n :: !Free(source, place, names, paths, k)
  }

  lemma KeysStep(place: Place, existing: seq<Existing>, resolved: seq<Draft>, d: Draft)
    ensures NameKeys(existing, resolved + [d]) == NameKeys(existing, resolved) + {Lower(d.name)}
    ensures PathKeys(place, existing, resolved + [d])
         == PathKeys(place, existing, resolved) + if d.backupPath != "" then {place.Key(d.backupPath)} else {}
  {
  }

  method Occupied(place: Place, existing: seq<Existing>) returns (names: set<string>, paths: set<string>)
    ensures names == NameKeys(existing, []) && paths == PathKeys(place, existing, [])
  {
    names, paths := {}, {};
    for i := 0 to |existing|
      invariant names == NameKeys(existing[..i], []) && paths == PathKeys(place, existing[..i], [])
    {
      assert existing[..i + 1] == existing[..i] + [existing[i]];
      names := names + {Lower(existing[i].name)};
      if existing[i].backupPath != "" { paths := paths + {place.Key(existing[i].backupPath)}; }
    }
    assert existing[..|existing|] == existing;
  }

  /** Every result so far is the lowest free choice after the ones before it. */
  ghost predicate AllResolve(drafts: seq<Draft>, resolved: seq<Draft>, place: Place, existing: seq<Existing>)
  {
    |resolved| <= |drafts| && forall i | 0 <= i < |resolved| :: Resolves(drafts[i], resolved[i], place, existing, resolved[..i])
  }

  lemma OneMoreResolves(drafts: seq<Draft>, resolved: seq<Draft>, place: Place, existing: seq<Existing>, d: Draft)
    requires AllResolve(drafts, resolved, place, existing) && |resolved| < |drafts|
    requires Resolves(drafts[|resolved|], d, place, existing, resolved)
    ensures AllResolve(drafts, resolved + [d], place, existing)
  {
    var more := resolved + [d];
    forall i | 0 <= i < |more| ensures Resolves(drafts[i], more[i], place, existing, more[..i]) {
      assert more[..i] == resolved[..i];
      if i == |resolved| { assert resolved[..i] == resolved; }
    }
  }

  method ResolveOne(source: Draft, place: Place, existing: seq<Existing>, before: seq<Draft>, names: set<string>,
                    paths: set<string>) returns (candidate: Draft)
    requires names == NameKeys(existing, before) && paths == PathKeys(place, existing, before)
    ensures Resolves(source, candidate, place, existing, before)
  {
    var n := FirstFree(source, place, names, paths);
    candidate := Numbered(source, place, n);
  }

  method ResolveUniqueConfigDrafts(drafts: seq<Draft>, place: Place, existing: seq<Existing>) returns (resolved: seq<Draft>)
    ensures |resolved| == |drafts| && AllResolve(drafts, resolved, place, existing)
  {
    var names, paths := Occupied(place, existing);
    resolved := [];
    for i := 0 to |drafts|
      invariant |resolved| == i && AllResolve(drafts, resolved, place, existing)
      invariant names == NameKeys(existing, resolved) && paths == PathKeys(place, existing, resolved)
    {
      var candidate := ResolveOne(drafts[i], place, existing, resolved, names, paths);
      KeysStep(place, existing, resolved, candidate);
      OneMoreResolves(drafts, resolved, place, existing, candidate);
      names := names + {Lower(candidate.name)};
      if candidate.backupPath != "" { paths := paths + {place.Key(candidate.backupPath)}; }
      resolved := resolved + [candidate];
    }
  }

  /** Resolved drafts keep their order and payload and collide with nothing: not with each other, not with an
      existing configuration, not with a folder on disk. */
  lemma ResolvedAreUnique(drafts: seq<Draft>, resolved: seq<Draft>, place: Place, existing: seq<Existing>, i: nat)
    requires |resolved| == |drafts| && i < |drafts|
    requires AllResolve(drafts, resolved, place, existing)
    ensures resolved[i].rest == drafts[i].rest
    ensures forall e | e in existing :: Lower(e.name) != Lower(resolved[i].name)
    ensures forall j | 0 <= j < i :: Lower(resolved[j].name) != Lower(resolved[i].name)
    ensures resolved[i].backupPath == "" <==> place.root == ""
    ensures place.root != "" ==>
              && (forall e | e in existing && e.backupPath != "" :: place.Key(e.backupPath) != place.Key(resolved[i].backupPath))
              && (forall j | 0 <= j < i :: place.Key(resolved[j].backupPath) != place.Key(resolved[i].backupPath))
              && (exists s :: s !in place.existing && resolved[i].backupPath == place.Child(s) && IsSafeSinglePathSegment(s))
  {
    assert Resolves(drafts[i], resolved[i], place, existing, resolved[..i]);
    forall j | 0 <= j < i ensures resolved[j] in resolved[..i] && (resolved[j].backupPath == "" <==> place.root == "") {
      assert resolved[..i][j] == resolved[j];
      assert Resolves(drafts[j], resolved[j], place, existing, resolved[..j]);
    }
    if place.root != "" {
      var s := SegmentFor(resolved[i].name);
      SanitizedIsSafe(resolved[i].name);
      MinecraftIsSafe();
      assert s !in place.existing && resolved[i].backupPath == place.Child(s);
    }
  }

  /** The folder that goes with a name. */
  function FolderOf(place: Place, name: string): string
  {
    place.root + "/" + if Sanitized(name) == "" then "Minecraft" else Sanitized(name)
  }

  /** A name collides, by itself or by its folder, with a configuration, an earlier draft or a folder on disk. */
  ghost predicate Collides(place: Place, existing: seq<Existing>, before: seq<Draft>, name: string)
  {
    || (exists e :: e in existing && Lower(e.name) == Lower(name))
    || (exists d :: d in before && Lower(d.name) == Lower(name))
    || (place.root != "" &&
        (|| (if Sanitized(name) == "" then "Minecraft" else Sanitized(name)) in place.existing
         || (exists e :: e in existing && e.backupPath != "" && place.Key(e.backupPath) == place.Key(FolderOf(place, name)))
         || (exists d :: d in before && d.backupPath != "" && place.Key(d.backupPath) == place.Key(FolderOf(place, name)))))
  }

  function NumberedName(base: string, n: nat): string { if n == 1 then base else base + " (" + Decimal(n) + ")" }

  /** Which name and folder a draft gets: its own name, or Minecraft for one without a usable character, under the lowest
      number from 1 on that collides with nothing, where number 1 leaves the name as it is. */
  ghost predicate Chosen(source: Draft, r: Draft, place: Place, existing: seq<Existing>, before: seq<Draft>, n: nat)
  {
    var base := if Sanitized(source.name) == "" then "Minecraft" else source.name;
    && n >= 1 && r.name == NumberedName(base, n) && r.rest == source.rest
    && r.backupPath == (if place.root == "" then "" else FolderOf(place, r.name))
    && (forall k | 1 <= k < n :: Collides(place, existing, before, NumberedName(base, k)))
    && !Collides(place, existing, before, r.name)
  }

  lemma CandidateIs(source: Draft, n: nat)
    requires n >= 1
    ensures CandidateName(BaseName(source), n) == NumberedName(if Sanitized(source.name) == "" then "Minecraft" else source.name, n)
  {
    EmptyFixed();
    if n > 1 {
      var base := BaseName(source);
      assert base + Suffix(n) == base + " (" + Decimal(n) + ")";
    }
  }

  lemma NameTaken(existing: seq<Existing>, before: seq<Draft>, name: string)
    ensures Lower(name) in NameKeys(existing, before)
       <==> (exists e :: e in existing && Lower(e.name) == Lower(name)) || (exists d :: d in before && Lower(d.name) == Lower(name))
  {}

  lemma PathTaken(place: Place, existing: seq<Existing>, before: seq<Draft>, key: string)
    ensures key in PathKeys(place, existing, before)
       <==> (|| (exists e :: e in existing && e.backupPath != "" && place.Key(e.backupPath) == key)
             || (exists d :: d in before && d.backupPath != "" && place.Key(d.backupPath) == key))
  {}

  lemma FreeIs(source: Draft, place: Place, existing: seq<Existing>, before: seq<Draft>, n: nat)
    ensures Free(source, place, NameKeys(existing, before), PathKeys(place, existing, before), n)
       <==> !Collides(place, existing, before, CandidateName(BaseName(source), n))
  {
    var name := CandidateName(BaseName(source), n);
    NameTaken(existing, before, name);
    PathTaken(place, existing, before, place.Key(FolderOf(place, name)));
    assert FolderOf(place, name) == place.Child(SegmentFor(name));
  }

  /** Exactly which name and folder each draft gets. */
  lemma ResolvedIsLowest(drafts: seq<Draft>, resolved: seq<Draft>, place: Place, existing: seq<Existing>, i: nat) returns (n: nat)
    requires |resolved| == |drafts| && i < |drafts|
    requires AllResolve(drafts, resolved, place, existing)
    ensures Chosen(drafts[i], resolved[i], place, existing, resolved[..i], n)
  {
    var source, before := drafts[i], resolved[..i];
    assert Resolves(source, resolved[i], place, existing, before);
    var names, paths := NameKeys(existing, before), PathKeys(place, existing, before);
    n :| n >= 1 && resolved[i] == Numbered(source, place, n) && Free(source, place, names, paths, n)
         && forall k | 1 <= k < n :: !Free(source, place, names, paths, k);
    CandidateIs(source, n);
    FreeIs(source, place, existing, before, n);
    var base := if Sanitized(source.name) == "" then "Minecraft" else source.name;
    forall k | 1 <= k < n ensures Collides(place, existing, before, NumberedName(base, k)) {
      CandidateIs(source, k);
      FreeIs(source, place, existing, before, k);
    }
  }

  lemma NineLetters(s: string)
    requires |s| == 9 && forall i | 0 <= i < 9 :: 'A' <= s[i] <= 'Z' || 'a' <= s[i] <= 'z'
    ensures IsSafeSinglePathSegment(s)
  {
    assert !IsSpace(s[0]) && !BadEnd(s[8]);
    assert Trim(s) == s;
    BeforeDotOf(s, "");
    assert s + "" == s && StripEnd(s) == s;
    LongIsNoDevice(Lower(s));
  }

  lemma LongIsNoDevice(stem: string)
    requires |stem| > 7
    ensures !IsDeviceStem(stem)
  {
    assert |"con"| == 3 && |"prn"| == 3 && |"aux"| == 3 && |"nul"| == 3 && |"conin$"| == 6 && |"conout$"| == 7;
  }

  lemma MinecraftIsSafe()
    ensures IsSafeSinglePathSegment("Minecraft")
  {
    NineLetters("Minecraft");
  }
}
