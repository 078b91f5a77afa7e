/** The string operations of Go's standard library that the provider relies on:
    ordering, sorting and compacting, trimming, splitting and cutting. Strings are
    sequences of code points; UTF-8 keeps their order, so `Less` is Go's `<`. */
module Text {

  datatype Option<+T> = None | Some(value: T)

  // ---------- sequences ----------

  lemma LastMember<T>(s: seq<T>)
    requires s != []
    ensures forall x :: x in s <==> x in s[..|s| - 1] || x == s[|s| - 1]
  {
    assert s == s[..|s| - 1] + [s[|s| - 1]];
  }

  lemma ConcatAssociates<T>(a: seq<T>, b: seq<T>, c: seq<T>)
    ensures a + (b + c) == a + b + c
  {
  }

  ghost predicate Distinct<T>(s: seq<T>) {
    forall i, j :: 0 <= i < j < |s| ==> s[i] != s[j]
  }

  lemma {:induction false} DistinctMultiset<T>(s: seq<T>)
    ensures Distinct(s) <==> forall x :: x in s ==> multiset(s)[x] <= 1
  {
    if s != [] {
      var init, last := s[..|s| - 1], s[|s| - 1];
      assert s == init + [last];
      DistinctMultiset(init);
      assert multiset(s) == multiset(init) + multiset{last};
      LastMember(s);
      if Distinct(s) {
        assert last !in init;
        assert last !in multiset(init);
      } else if Distinct(init) {
        var i :| 0 <= i < |init| && init[i] == last;
        assert init[i] in multiset(init);
        assert multiset(s)[last] > 1;
      } else {
        var x :| x in init && multiset(init)[x] > 1;
        assert multiset(s)[x] > 1;
      }
    }
  }

  /** The elements of a sequence. */
  ghost function Elements<T>(s: seq<T>): set<T> {
    set x | x in s
  }

  /** How often each key occurs: a Go map from key to count. */
  function Tally<T>(key: T -> string, s: seq<T>): multiset<string> {
    if s == [] then multiset{} else Tally(key, s[..|s| - 1]) + multiset{key(s[|s| - 1])}
  }

  lemma TallyNext<T>(key: T -> string, s: seq<T>, n: nat)
    requires n < |s|
    ensures Tally(key, s[..n + 1]) == Tally(key, s[..n]) + multiset{key(s[n])}
  {
    assert s[..n + 1][..n] == s[..n];
  }

  lemma {:induction false} TallyPositive<T(!new)>(key: T -> string, s: seq<T>, k: string)
    ensures Tally(key, s)[k] > 0 <==> exists x :: x in s && key(x) == k
  {
    if s != [] {
      TallyPositive(key, s[..|s| - 1], k);
      LastMember(s);
    }
  }

  /** A key is counted once exactly when only its own element has it. */
  lemma {:induction false} TallyOne<T(!new)>(key: T -> string, s: seq<T>, x: T)
    requires Distinct(s) && x in s
    ensures Tally(key, s)[key(x)] <= 1 <==> forall y :: y in s && key(y) == key(x) ==> y == x
  {
    var init, last := s[..|s| - 1], s[|s| - 1];
    LastMember(s);
    TallyPositive(key, init, key(x));
    if last == x {
      assert x !in init;
    } else {
      TallyOne(key, init, x);
    }
  }

  // ---------- ordering ----------

  predicate Less(a: string, b: string) {
    if b == [] then false
    else if a == [] then true
    else a[0] < b[0] || (a[0] == b[0] && Less(a[1..], b[1..]))
  }

  lemma {:induction false} LessTransitive(a: string, b: string, c: string)
    requires Less(a, b) && Less(b, c)
    ensures Less(a, c)
  {
    if a != [] && a[0] == b[0] && b[0] == c[0] {
      LessTransitive(a[1..], b[1..], c[1..]);
    }
  }

  lemma {:induction false} LessTotal(a: string, b: string)
    ensures Less(a, b) || Less(b, a) || a == b
    ensures !(Less(a, b) && Less(b, a))
    ensures !Less(a, a)
  {
    if a != [] {
      LessTotal(a[1..], a[1..]);
      if b != [] {
        LessTotal(a[1..], b[1..]);
        assert a == [a[0]] + a[1..] && b == [b[0]] + b[1..];
      }
    }
  }

  /** The texts agree below `n`, and there `a` ends or has the smaller character. */
  predicate DiffersAt(a: string, b: string, n: nat) {
    n <= |a| && n < |b| && a[..n] == b[..n] && (n == |a| || a[n] < b[n])
  }

  lemma SameHead(a: string, b: string, n: nat)
    requires 0 < n && DiffersAt(a, b, n)
    ensures a != [] && b != [] && a[0] == b[0]
  {
    assert a[..n][0] == b[..n][0];
  }

  /** Below a common first character the difference is one further on. */
  lemma DiffersNext(a: string, b: string, n: nat)
    requires a != [] && b != [] && a[0] == b[0]
    ensures DiffersAt(a, b, n + 1) <==> DiffersAt(a[1..], b[1..], n)
  {
    if n < |a| && n + 1 < |b| {
      assert a[..n + 1] == [a[0]] + a[1..][..n] && b[..n + 1] == [b[0]] + b[1..][..n];
      assert a[..n + 1][1..] == a[1..][..n] && b[..n + 1][1..] == b[1..][..n];
    }
  }

  /** Less is the order of the first difference, a prefix coming first. */
  lemma {:induction false} LessMeaning(a: string, b: string)
    ensures Less(a, b) <==> exists n: nat :: DiffersAt(a, b, n)
  {
    assert DiffersAt(a, b, 0) <==> b != [] && (a == [] || a[0] < b[0]);
    if a != [] && b != [] && a[0] == b[0] {
      LessMeaning(a[1..], b[1..]);
      forall n: nat ensures DiffersAt(a, b, n + 1) <==> DiffersAt(a[1..], b[1..], n) { DiffersNext(a, b, n); }
      assert forall n: nat :: DiffersAt(a, b, n) ==> n > 0 && DiffersAt(a[1..], b[1..], n - 1);
    } else {
      forall n: nat | DiffersAt(a, b, n) ensures DiffersAt(a, b, 0) {
        if n > 0 { SameHead(a, b, n); }
      }
    }
  }

  /** Strictly increasing under a string key. */
  ghost predicate IncreasingBy<T(!new)>(key: T -> string, s: seq<T>) {
    forall i, j :: 0 <= i < j < |s| ==> Less(key(s[i]), key(s[j]))
  }

  /** A strictly increasing sequence is determined by its set of elements. */
  lemma {:induction false} IncreasingUnique<T(!new)>(key: T -> string, a: seq<T>, b: seq<T>)
    requires IncreasingBy(key, a) && IncreasingBy(key, b)
    requires forall x :: x in a <==> x in b
    ensures a == b
  {
    assert a != [] ==> a[0] in b;
    assert b != [] ==> b[0] in a;
    if a != [] && b != [] {
      var j :| 0 <= j < |b| && b[j] == a[0];
      var i :| 0 <= i < |a| && a[i] == b[0];
      LessTotal(key(a[0]), key(b[0]));
      assert a[0] == b[0];
      forall x ensures x in a[1..] <==> x in b[1..] {
        LessTotal(key(a[0]), key(a[0]));
        assert x in a[1..] ==> x in b && x != b[0];
        assert x in b[1..] ==> x in a && x != a[0];
      }
      IncreasingUnique(key, a[1..], b[1..]);
    }
  }

  // ---------- sorting by a key, as sort.Slice and slices.Sort ----------

  function InsertBy<T>(key: T -> string, x: T, s: seq<T>): (r: seq<T>)
    ensures |r| == |s| + 1
    ensures multiset(r) == multiset(s) + multiset{x}
  {
    if s == [] then [x]
    else if Less(key(s[0]), key(x)) then
      assert s == [s[0]] + s[1..];
      [s[0]] + InsertBy(key, x, s[1..])
    else [x] + s
  }

  function SortBy<T>(key: T -> string, s: seq<T>): (r: seq<T>)
    ensures |r| == |s|
    ensures multiset(r) == multiset(s)
  {
    if s == [] then []
    else
      assert s == [s[0]] + s[1..];
      InsertBy(key, s[0], SortBy(key, s[1..]))
  }

  ghost predicate SortedBy<T(!new)>(key: T -> string, s: seq<T>) {
    forall i, j :: 0 <= i < j < |s| ==> !Less(key(s[j]), key(s[i]))
  }

  lemma {:induction false} InsertSorted<T(!new)>(key: T -> string, x: T, s: seq<T>)
    requires SortedBy(key, s)
    ensures SortedBy(key, InsertBy(key, x, s))
  {
    var r := InsertBy(key, x, s);
    if s == [] {
    } else if Less(key(s[0]), key(x)) {
      InsertSorted(key, x, s[1..]);
      var t := InsertBy(key, x, s[1..]);
      forall j | 0 <= j < |t| ensures !Less(key(t[j]), key(s[0])) {
        assert t[j] in multiset(t);
        LessTotal(key(x), key(s[0]));
        if t[j] != x {
          assert t[j] in s[1..];
          var k :| 0 <= k < |s[1..]| && s[1..][k] == t[j];
          assert s[k + 1] == t[j];
        }
      }
    } else {
      forall j | 0 <= j < |s| ensures !Less(key(s[j]), key(x)) {
        if Less(key(s[j]), key(x)) {
          LessTotal(key(s[0]), key(x));
          if key(s[0]) != key(x) {
            LessTransitive(key(s[j]), key(x), key(s[0]));
          }
        }
      }
    }
  }

  lemma {:induction false} SortIsSorted<T(!new)>(key: T -> string, s: seq<T>)
    ensures SortedBy(key, SortBy(key, s))
  {
    if s != [] {
      SortIsSorted(key, s[1..]);
      InsertSorted(key, s[0], SortBy(key, s[1..]));
    }
  }

  lemma SortDistinct<T>(key: T -> string, s: seq<T>)
    requires Distinct(s)
    ensures Distinct(SortBy(key, s))
  {
    DistinctMultiset(s);
    DistinctMultiset(SortBy(key, s));
    SortMembers(key, s);
  }

  lemma SortMembers<T>(key: T -> string, s: seq<T>)
    ensures forall x :: x in SortBy(key, s) <==> x in s
  {
    forall x ensures x in SortBy(key, s) <==> x in s {
      assert x in SortBy(key, s) <==> x in multiset(SortBy(key, s));
      assert x in s <==> x in multiset(s);
    }
  }

  // ---------- canonical string lists: slices.Sort then slices.Compact ----------

  function Self(s: string): string { s }

  function Compact(s: seq<string>): seq<string> {
    if |s| <= 1 then s
    else if s[0] == s[1] then Compact(s[1..])
    else [s[0]] + Compact(s[1..])
  }

  lemma {:induction false} CompactSorted(s: seq<string>)
    requires SortedBy(Self, s)
    ensures IncreasingBy(Self, Compact(s))
    ensures forall x :: x in Compact(s) <==> x in s
  {
    if |s| > 1 {
      CompactSorted(s[1..]);
      assert s == [s[0]] + s[1..];
      assert s[1] in s[1..];
      if s[0] != s[1] {
        forall x | x in Compact(s[1..]) ensures Less(s[0], x) {
          var k :| 0 <= k < |s[1..]| && s[1..][k] == x;
          assert !Less(Self(s[k + 1]), Self(s[0]));
          assert !Less(Self(s[1]), Self(s[0]));
          assert k > 0 ==> !Less(Self(s[k + 1]), Self(s[1]));
          LessTotal(s[0], s[1]);
          LessTotal(s[0], x);
        }
      }
    }
  }

  function Canonical(s: seq<string>): seq<string> {
    Compact(SortBy(Self, s))
  }

  /** Sorting and compacting gives the one strictly increasing list of the elements. */
  lemma CanonicalMeaning(s: seq<string>)
    ensures IncreasingBy(Self, Canonical(s))
    ensures forall x :: x in Canonical(s) <==> x in s
  {
    SortIsSorted(Self, s);
    SortMembers(Self, s);
    CompactSorted(SortBy(Self, s));
  }

  // ---------- trimming, splitting, cutting ----------

  /** unicode.IsSpace */
  predicate IsSpace(c: char) {
    c in {'\t', '\n', '\U{0B}', '\U{0C}', '\r', ' ', '\U{85}', '\U{A0}', '\U{1680}',
          '\U{2028}', '\U{2029}', '\U{202F}', '\U{205F}', '\U{3000}'}
    || '\U{2000}' <= c <= '\U{200A}'
  }

  function TrimLeft(s: string): string {
    if s != [] && IsSpace(s[0]) then TrimLeft(s[1..]) else s
  }

  function TrimRight(s: string): string {
    if s != [] && IsSpace(s[|s| - 1]) then TrimRight(s[..|s| - 1]) else s
  }

  function TrimSpace(s: string): string {
    TrimRight(TrimLeft(s))
  }

  predicate Trimmed(s: string) {
    s == [] || (!IsSpace(s[0]) && !IsSpace(s[|s| - 1]))
  }

  lemma {:induction false} TrimLeftMeaning(s: string)
    ensures TrimLeft(s) == [] || !IsSpace(TrimLeft(s)[0])
    ensures forall c :: c in TrimLeft(s) ==> c in s
  {
    if s != [] && IsSpace(s[0]) { TrimLeftMeaning(s[1..]); }
  }

  lemma {:induction false} TrimRightMeaning(s: string)
    ensures TrimRight(s) == [] || (!IsSpace(TrimRight(s)[|TrimRight(s)| - 1]) && TrimRight(s)[0] == s[0])
    ensures forall c :: c in TrimRight(s) ==> c in s
  {
    if s != [] && IsSpace(s[|s| - 1]) { TrimRightMeaning(s[..|s| - 1]); }
  }

  lemma TrimMeaning(s: string)
    ensures Trimmed(TrimSpace(s))
    ensures forall c :: c in TrimSpace(s) ==> c in s
    ensures Trimmed(s) ==> TrimSpace(s) == s
  {
    TrimLeftMeaning(s);
    TrimRightMeaning(TrimLeft(s));
  }

  /** The white space characters by number. */
  lemma SpaceCodes(c: char)
    ensures IsSpace(c) <==>
      var n := c as int;
      || 9 <= n <= 13 || n == 32 || n == 0x85 || n == 0xA0 || n == 0x1680 || 0x2000 <= n <= 0x200A
      || n == 0x2028 || n == 0x2029 || n == 0x202F || n == 0x205F || n == 0x3000
  {
  }

  predicate AllSpaces(s: string) {
    forall i :: 0 <= i < |s| ==> IsSpace(s[i])
  }

  lemma {:induction false} TrimLeftTakes(s: string) returns (l: string)
    ensures s == l + TrimLeft(s) && AllSpaces(l)
  {
    l := "";
    if s != [] && IsSpace(s[0]) {
      var rest := TrimLeftTakes(s[1..]);
      l := [s[0]] + rest;
    }
  }

  lemma {:induction false} TrimRightTakes(s: string) returns (r: string)
    ensures s == TrimRight(s) + r && AllSpaces(r)
  {
    r := "";
    if s != [] && IsSpace(s[|s| - 1]) {
      var rest := TrimRightTakes(s[..|s| - 1]);
      r := rest + [s[|s| - 1]];
    }
  }

  /** Trimming takes only spaces away, on both sides. */
  lemma TrimTakes(s: string) returns (l: string, r: string)
    ensures s == l + TrimSpace(s) + r && AllSpaces(l) && AllSpaces(r)
  {
    l := TrimLeftTakes(s);
    r := TrimRightTakes(TrimLeft(s));
    assert l + (TrimSpace(s) + r) == l + TrimSpace(s) + r;
  }

  /** What has no space at its ends comes out of any padding by spaces. */
  lemma TrimPadded(l: string, x: string, r: string)
    requires AllSpaces(l) && AllSpaces(r) && x != "" && Trimmed(x)
    ensures TrimSpace(l + x + r) == x
  {
    var s := l + x + r;
    var l', r' := TrimTakes(s);
    var y := TrimSpace(s);
    TrimMeaning(s);
    assert s[|l|] == x[0] && s[|l| + |x| - 1] == x[|x| - 1];
    assert !AllSpaces(s);
    assert y == "" ==> s == l' + r' && AllSpaces(s);
    SamePadding(s, l, x, r, l', y, r');
  }

  lemma TrimEmptyIff(s: string)
    ensures TrimSpace(s) == "" <==> AllSpaces(s)
  {
    var l, r := TrimTakes(s);
    if TrimSpace(s) != "" {
      TrimMeaning(s);
      assert s[|l|] == TrimSpace(s)[0];
      assert !AllSpaces(s);
    }
  }

  lemma PastSpaces(l: string, rest: string, p: nat)
    requires AllSpaces(l) && p < |l + rest| && !IsSpace((l + rest)[p])
    ensures p >= |l|
  {
  }

  lemma BeforeSpaces(rest: string, r: string, p: nat)
    requires AllSpaces(r) && p < |rest + r| && !IsSpace((rest + r)[p])
    ensures p < |rest|
  {
  }

  lemma SamePadding(s: string, l: string, x: string, r: string, l': string, y: string, r': string)
    requires s == l + x + r && s == l' + y + r' && x != "" && y != ""
    requires AllSpaces(l) && AllSpaces(r) && AllSpaces(l') && AllSpaces(r')
    requires !IsSpace(x[0]) && !IsSpace(x[|x| - 1]) && !IsSpace(y[0]) && !IsSpace(y[|y| - 1])
    ensures x == y
  {
    hide IsSpace;
    assert s[|l|] == x[0] && s[|l'|] == y[0];
    var e, e' := |l| + |x|, |l'| + |y|;
    assert s[e - 1] == x[|x| - 1] && s[e' - 1] == y[|y| - 1];
    assert s == l + (x + r) && s == l' + (y + r');
    PastSpaces(l, x + r, |l'|);
    PastSpaces(l', y + r', |l|);
    BeforeSpaces(l + x, r, e' - 1);
    BeforeSpaces(l' + y, r', e - 1);
    assert x == s[|l|..e] && y == s[|l'|..e'];
  }

  /** strings.Split for a one-character separator. */
  function Split(s: string, sep: char): (r: seq<string>)
    ensures |r| >= 1
  {
    if s == [] then [""]
    else
      var rest := Split(s[1..], sep);
      if s[0] == sep then [""] + rest else [[s[0]] + rest[0]] + rest[1..]
  }

  /** strings.Join */
  function Join(parts: seq<string>, sep: char): string {
    if |parts| == 0 then ""
    else if |parts| == 1 then parts[0]
    else parts[0] + [sep] + Join(parts[1..], sep)
  }

  lemma {:induction false} SplitPieces(s: string, sep: char)
    ensures forall p :: p in Split(s, sep) ==> sep !in p
    ensures Join(Split(s, sep), sep) == s
  {
    if s != [] {
      SplitPieces(s[1..], sep);
      var rest := Split(s[1..], sep);
      assert s == [s[0]] + s[1..];
      assert rest[0] in rest;
      if s[0] != sep && |rest| > 1 {
        assert Join(rest, sep) == rest[0] + [sep] + Join(rest[1..], sep);
        assert Split(s, sep)[1..] == rest[1..];
      }
    }
  }

  lemma {:induction false} SplitPiece(p: string, sep: char)
    requires sep !in p
    ensures Split(p, sep) == [p]
  {
    if p != [] {
      SplitPiece(p[1..], sep);
      assert p == [p[0]] + p[1..];
    }
  }

  lemma {:induction false} SplitPrefix(p: string, sep: char, rest: string)
    requires sep !in p
    ensures Split(p + [sep] + rest, sep) == [p] + Split(rest, sep)
  {
    var s := p + [sep] + rest;
    if p == [] {
      assert s[1..] == rest;
    } else {
      SplitPrefix(p[1..], sep, rest);
      assert s[1..] == p[1..] + [sep] + rest;
      assert s[0] == p[0] && p[0] in p;
      assert p == [p[0]] + p[1..];
      var tail := Split(s[1..], sep);
      assert tail[0] == p[1..] && tail[1..] == Split(rest, sep);
    }
  }

  /** Splitting undoes joining; with SplitPieces this pins Split down completely. */
  lemma {:induction false} SplitJoin(parts: seq<string>, sep: char)
    requires |parts| >= 1
    requires forall p :: p in parts ==> sep !in p
    ensures Split(Join(parts, sep), sep) == parts
  {
    assert parts[0] in parts;
    if |parts| == 1 {
      SplitPiece(parts[0], sep);
    } else {
      SplitJoin(parts[1..], sep);
      SplitPrefix(parts[0], sep, Join(parts[1..], sep));
    }
  }

  /** strings.Cut at the first separator. */
  datatype CutResult = CutResult(before: string, after: string, found: bool)

  function Cut(s: string, sep: char): CutResult {
    if s == [] then CutResult("", "", false)
    else if s[0] == sep then CutResult("", s[1..], true)
    else
      var rest := Cut(s[1..], sep);
      CutResult([s[0]] + rest.before, rest.after, rest.found)
  }

  lemma {:induction false} CutMeaning(s: string, sep: char, before: string, after: string)
    ensures Cut(s, sep) == CutResult(before, after, true) <==> (sep !in before && s == before + [sep] + after)
  {
    if s == [] {
    } else if s[0] == sep {
      if before == [] {
        assert s == before + [sep] + after <==> s[1..] == after by {
          assert s == [sep] + s[1..];
          assert ([sep] + after)[1..] == after;
        }
      } else {
        assert (before + [sep] + after)[0] == before[0];
      }
    } else {
      var rest := Cut(s[1..], sep);
      if before == [] {
        assert ([sep] + after)[0] == sep;
      } else {
        CutMeaning(s[1..], sep, before[1..], after);
        assert before == [before[0]] + before[1..];
        assert s == [s[0]] + s[1..];
        assert before + [sep] + after == [before[0]] + (before[1..] + [sep] + after);
        assert (before + [sep] + after)[1..] == before[1..] + [sep] + after;
      }
    }
  }

  /** strings.EqualFold, exact for every word the provider compares with: those words hold no
      letter that folds to a character outside this table. */
  function LowerChar(c: char): char {
    if 'A' <= c <= 'Z' then (c as int + 32) as char
    else if c == '\U{212A}' then 'k'
    else c
  }

  predicate EqualFold(s: string, t: string) {
    |s| == |t| && forall i :: 0 <= i < |s| ==> LowerChar(s[i]) == LowerChar(t[i])
  }

  /** `s` spells the lower-case `word` in any mixture of cases; the Kelvin sign counts as a k. */
  predicate CaseVariant(s: string, word: string) {
    |s| == |word| && forall i :: 0 <= i < |s| ==>
      || s[i] == word[i]
      || ('A' <= s[i] <= 'Z' && s[i] as int + 32 == word[i] as int)
      || (s[i] == '\U{212A}' && word[i] == 'k')
  }

  lemma FoldMeaning(s: string, word: string)
    requires forall i :: 0 <= i < |word| ==> !('A' <= word[i] <= 'Z') && word[i] != '\U{212A}'
    ensures EqualFold(s, word) <==> CaseVariant(s, word)
  {
  }

  /** `s` spells the lower-case `word` in any mixture of cases, possibly padded with spaces. */
  ghost predicate PaddedVariant(s: string, word: string) {
    exists l: string, core: string, r: string :: AllSpaces(l) && AllSpaces(r) && s == l + core + r && CaseVariant(core, word)
  }

  predicate LowerLetters(word: string) {
    word != "" && forall i :: 0 <= i < |word| ==> 'a' <= word[i] <= 'z'
  }

  lemma VariantIsTrimmed(core: string, word: string)
    requires LowerLetters(word) && CaseVariant(core, word)
    ensures core != "" && Trimmed(core)
  {
    SpaceCodes(core[0]);
    SpaceCodes(core[|core| - 1]);
  }

  lemma TrimFoldMeaning(s: string, word: string)
    requires LowerLetters(word)
    ensures EqualFold(TrimSpace(s), word) <==> PaddedVariant(s, word)
  {
    hide TrimSpace, EqualFold, IsSpace;
    FoldMeaning(TrimSpace(s), word);
    var l, r := TrimTakes(s);
    if PaddedVariant(s, word) {
      var l': string, core: string, r': string :| AllSpaces(l') && AllSpaces(r') && s == l' + core + r' && CaseVariant(core, word);
      VariantIsTrimmed(core, word);
      TrimPadded(l', core, r');
    }
  }

  /** "namespace/name", the key under which Secrets, routes and Instances are listed. */
  function Slashed(ns: string, name: string): string {
    ns + "/" + name
  }

  lemma SlashedInjective(ns: string, name: string, ns': string, name': string)
    requires '/' !in ns && '/' !in ns'
    requires Slashed(ns, name) == Slashed(ns', name')
    ensures ns == ns' && name == name'
  {
    CutMeaning(Slashed(ns, name), '/', ns, name);
    CutMeaning(Slashed(ns, name), '/', ns', name');
  }
}
