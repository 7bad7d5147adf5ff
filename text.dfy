/**
 * String and path primitives that the Rust standard library supplies to the
 * agent: prefix and substring tests, `str::lines`, `str::split`, `join`,
 * `trim_end_matches`, ASCII lower-casing, byte-wise ordering of names,
 * `Path::join`, `Path::extension` / `file_stem`, `Path::starts_with`,
 * decimal rendering and UTF-8 byte length.
 */
module Text {
  import opened Wrappers

  // ---------------------------------------------------------------- prefixes

  predicate IsPrefix(p: string, s: string) {
    |p| <= |s| && s[..|p|] == p
  }

  predicate IsSuffix(p: string, s: string) {
    |p| <= |s| && s[|s| - |p|..] == p
  }

  /** `needle` occurs in `haystack` starting at index `i`. */
  predicate OccursAt(haystack: string, needle: string, i: int) {
    0 <= i <= |haystack| - |needle| && haystack[i..i + |needle|] == needle
  }

  /** `haystack.contains(needle)` for string needles. */
  predicate Contains(haystack: string, needle: string) {
    exists i | 0 <= i <= |haystack| :: OccursAt(haystack, needle, i)
  }

  lemma EmptyIsContained(s: string)
    ensures Contains(s, "")
  {
    assert OccursAt(s, "", 0);
  }

  // ------------------------------------------------------------ lower case

  /** `char::to_lowercase` restricted to ASCII letters. */
  function LowerChar(c: char): char {
    if 'A' <= c <= 'Z' then (c as int + 32) as char else c
  }

  function ToLower(s: string): (r: string)
    ensures |r| == |s|
    ensures forall i :: 0 <= i < |s| ==> r[i] == LowerChar(s[i])
  {
    seq(|s|, i requires 0 <= i < |s| => LowerChar(s[i]))
  }

  // ------------------------------------------------------ searching chars

  /** Index of the first `c` in `s`, or `|s|` when there is none. */
  function IndexOf(s: string, c: char): (i: nat)
    ensures i <= |s|
    ensures i < |s| ==> s[i] == c
    ensures forall j :: 0 <= j < i ==> s[j] != c
    decreases |s|
  {
    if s == [] then 0
    else if s[0] == c then 0
    else 1 + IndexOf(s[1..], c)
  }

  /** Index of the last `c` in `s`. */
  function LastIndexOf(s: string, c: char): (r: Option<nat>)
    ensures r.Some? ==> r.value < |s| && s[r.value] == c
    ensures r.Some? ==> forall j :: r.value < j < |s| ==> s[j] != c
    ensures r.None? ==> forall j :: 0 <= j < |s| ==> s[j] != c
    decreases |s|
  {
    if s == [] then None
    else if s[|s| - 1] == c then Some(|s| - 1)
    else LastIndexOf(s[..|s| - 1], c)
  }

  function Count(s: string, c: char): nat
    decreases |s|
  {
    if s == [] then 0 else (if s[0] == c then 1 else 0) + Count(s[1..], c)
  }

  // ------------------------------------------------------------------ lines

  /** Drops the `'\r'` of a `"\r\n"` line ending. */
  function StripCR(line: string): string {
    if |line| > 0 && line[|line| - 1] == '\r' then line[..|line| - 1] else line
  }

  /**
   * `str::lines`: split at `'\n'` (a preceding `'\r'` belongs to the line
   * ending); a final line ending does not start an empty line.
   */
  function Lines(s: string): seq<string>
    decreases |s|
  {
    if s == [] then []
    else
      var i := IndexOf(s, '\n');
      if i == |s| then [s] else [StripCR(s[..i])] + Lines(s[i + 1..])
  }

  lemma {:induction false} LinesHaveNoNewline(s: string)
    ensures forall k :: 0 <= k < |Lines(s)| ==> '\n' !in Lines(s)[k]
    decreases |s|
  {
    if s != [] {
      var i := IndexOf(s, '\n');
      if i < |s| {
        LinesHaveNoNewline(s[i + 1..]);
        var line := StripCR(s[..i]);
        assert forall j :: 0 <= j < |line| ==> line[j] == s[j];
      }
    }
  }

  // ------------------------------------------------------------ split, join

  /** `s.split(c)`: always at least one part. */
  function Split(s: string, c: char): (r: seq<string>)
    ensures |r| >= 1
    decreases |s|
  {
    var i := IndexOf(s, c);
    if i == |s| then [s] else [s[..i]] + Split(s[i + 1..], c)
  }

  /** `parts.join(sep)`. */
  function Join(parts: seq<string>, sep: string): string
    decreases |parts|
  {
    if |parts| == 0 then ""
    else if |parts| == 1 then parts[0]
    else parts[0] + sep + Join(parts[1..], sep)
  }

  /** Three parts joined: the separator sits between each neighbouring pair. */
  lemma Join3(a: string, b: string, c: string, sep: string)
    ensures Join([a, b, c], sep) == a + sep + b + sep + c
  {
    assert [a, b, c][1..] == [b, c];
    assert [b, c][1..] == [c];
    assert Join([b, c], sep) == b + sep + c;
    assert a + sep + (b + sep + c) == a + sep + b + sep + c;
  }

  lemma {:induction false} JoinSnoc(parts: seq<string>, x: string, sep: string)
    requires parts != []
    ensures Join(parts + [x], sep) == Join(parts, sep) + sep + x
    decreases |parts|
  {
    if |parts| == 1 {
      assert parts + [x] == [parts[0], x];
    } else {
      assert (parts + [x])[1..] == parts[1..] + [x];
      JoinSnoc(parts[1..], x, sep);
    }
  }

  /** Splitting at `c` and joining with `c` gives back the string. */
  lemma {:induction false} SplitJoin(s: string, c: char)
    ensures Join(Split(s, c), [c]) == s
    decreases |s|
  {
    var i := IndexOf(s, c);
    if i < |s| {
      SplitJoin(s[i + 1..], c);
      assert s == s[..i] + [c] + s[i + 1..];
    }
  }

  /** The first separator is the one right after a separator-free head. */
  lemma IndexOfFirst(a: string, b: string, c: char)
    requires c !in a
    ensures IndexOf(a + [c] + b, c) == |a|
  {
    var s := a + [c] + b;
    assert forall j :: 0 <= j < |a| ==> s[j] == a[j];
    assert s[|a|] == c;
  }

  /** The first part of a split runs up to the first separator. */
  lemma SplitCons(a: string, b: string, c: char)
    requires c !in a
    ensures Split(a + [c] + b, c) == [a] + Split(b, c)
  {
    var s := a + [c] + b;
    IndexOfFirst(a, b, c);
    assert s[..|a|] == a;
    assert s[|a| + 1..] == b;
  }

  /** Splitting at the separator recovers parts that do not contain it. */
  lemma {:induction false} JoinSplit(parts: seq<string>, c: char)
    requires parts != []
    requires forall k :: 0 <= k < |parts| ==> c !in parts[k]
    ensures Split(Join(parts, [c]), c) == parts
    decreases |parts|
  {
    var p := parts[0];
    assert c !in p;
    if |parts| == 1 {
      assert IndexOf(p, c) == |p|;
    } else {
      var rest := parts[1..];
      assert forall k :: 0 <= k < |rest| ==> c !in rest[k] by {
        forall k | 0 <= k < |rest| ensures c !in rest[k] {
          assert rest[k] == parts[k + 1];
        }
      }
      JoinSplit(rest, c);
      assert Join(parts, [c]) == p + [c] + Join(rest, [c]);
      SplitCons(p, Join(rest, [c]), c);
      assert parts == [p] + rest;
    }
  }

  /** The number of parts is one more than the number of separators. */
  lemma {:induction false} SplitCount(s: string, c: char)
    ensures |Split(s, c)| == Count(s, c) + 1
    decreases |s|
  {
    var i := IndexOf(s, c);
    CountPrefixFree(s, c, i);
    if i < |s| {
      SplitCount(s[i + 1..], c);
      CountAppend(s[..i + 1], s[i + 1..], c);
      CountPrefixFree(s[..i + 1], c, i);
      assert s[..i + 1][..i] == s[..i];
      assert s[..i + 1] + s[i + 1..] == s;
      CountOne(s[..i + 1], c, i);
    } else {
      assert s[..i] == s;
    }
  }

  lemma {:induction false} CountPrefixFree(s: string, c: char, i: nat)
    requires i <= |s|
    requires forall j :: 0 <= j < i ==> s[j] != c
    ensures Count(s[..i], c) == 0
    decreases i
  {
    if i > 0 {
      assert s[..i][1..] == s[1..][..i - 1];
      CountPrefixFree(s[1..], c, i - 1);
    }
  }

  lemma {:induction false} CountAppend(a: string, b: string, c: char)
    ensures Count(a + b, c) == Count(a, c) + Count(b, c)
    decreases |a|
  {
    if a != [] {
      assert (a + b)[1..] == a[1..] + b;
      CountAppend(a[1..], b, c);
    } else {
      assert a + b == b;
    }
  }

  /** A string whose only `c` is its last char counts one `c`. */
  lemma {:induction false} CountOne(s: string, c: char, i: nat)
    requires i + 1 == |s| && s[i] == c
    requires forall j :: 0 <= j < i ==> s[j] != c
    ensures Count(s, c) == 1
  {
    CountAppend(s[..i], [c], c);
    CountPrefixFree(s, c, i);
    assert s == s[..i] + [c];
  }

  // ------------------------------------------------------------------- trim

  /** `s.trim_end_matches(c)`: every trailing `c` removed. */
  function TrimEnd(s: string, c: char): (r: string)
    ensures IsPrefix(r, s)
    ensures r == [] || r[|r| - 1] != c
    ensures forall i :: |r| <= i < |s| ==> s[i] == c
    decreases |s|
  {
    if |s| > 0 && s[|s| - 1] == c then TrimEnd(s[..|s| - 1], c) else s
  }

  // --------------------------------------------------------------- ordering

  /** Byte-wise (equivalently code-point-wise) lexicographic order of names. */
  predicate LexLe(a: string, b: string)
    decreases |a|
  {
    |a| == 0 || (|b| > 0 && (a[0] < b[0] || (a[0] == b[0] && LexLe(a[1..], b[1..]))))
  }

  lemma {:induction false} LexLeAntisymmetric(a: string, b: string)
    requires LexLe(a, b) && LexLe(b, a)
    ensures a == b
    decreases |a|
  {
    if |a| > 0 {
      LexLeAntisymmetric(a[1..], b[1..]);
      assert a == [a[0]] + a[1..] && b == [b[0]] + b[1..];
    }
  }

  lemma {:induction false} LexLeTransitive(a: string, b: string, c: string)
    requires LexLe(a, b) && LexLe(b, c)
    ensures LexLe(a, c)
    decreases |a|
  {
    if |a| > 0 && a[0] == b[0] && b[0] == c[0] {
      LexLeTransitive(a[1..], b[1..], c[1..]);
    }
  }

  lemma {:induction false} LexLeTotal(a: string, b: string)
    ensures LexLe(a, b) || LexLe(b, a)
    decreases |a|
  {
    if |a| > 0 && |b| > 0 && a[0] == b[0] {
      LexLeTotal(a[1..], b[1..]);
    }
  }

  predicate LexLt(a: string, b: string) {
    LexLe(a, b) && a != b
  }

  /** Strictly increasing, hence also free of duplicates. */
  predicate StrictlySorted(s: seq<string>) {
    forall i, j :: 0 <= i < j < |s| ==> LexLt(s[i], s[j])
  }

  predicate IsLeast(m: string, s: set<string>) {
    m in s && forall y :: y in s ==> LexLe(m, y)
  }

  lemma {:induction false} LeastExists(s: set<string>)
    requires s != {}
    ensures exists m :: IsLeast(m, s)
    decreases |s|
  {
    var x :| x in s;
    if s - {x} == {} {
      assert s == {x};
      assert LexLe(x, x) by { LexLeTotal(x, x); }
      assert IsLeast(x, s);
    } else {
      LeastExists(s - {x});
      var m :| IsLeast(m, s - {x});
      LexLeTotal(x, m);
      if LexLe(x, m) {
        forall y | y in s ensures LexLe(x, y) {
          if y == x { LexLeTotal(x, x); } else { LexLeTransitive(x, m, y); }
        }
        assert IsLeast(x, s);
      } else {
        assert IsLeast(m, s);
      }
    }
  }

  lemma LeastUnique(s: set<string>)
    ensures forall a, b :: IsLeast(a, s) && IsLeast(b, s) ==> a == b
  {
    forall a, b | IsLeast(a, s) && IsLeast(b, s) ensures a == b {
      LexLeAntisymmetric(a, b);
    }
  }

  /** The least element, put before the others in increasing order, keeps the order strict. */
  lemma LeastBeforeRest(m: string, s: set<string>, rest: seq<string>)
    requires IsLeast(m, s) && StrictlySorted(rest) && forall x :: x in rest <==> x in s - {m}
    ensures StrictlySorted([m] + rest)
  {
    var r := [m] + rest;
    forall i, j | 0 <= i < j < |r| ensures LexLt(r[i], r[j]) {
      assert r[j] == rest[j - 1];
      if i > 0 {
        assert r[i] == rest[i - 1];
      } else {
        assert rest[j - 1] in s - {m};
      }
    }
  }

  /** The elements of a set of names in increasing order (a sorted directory listing). */
  function SortedSet(s: set<string>): (r: seq<string>)
    ensures |r| == |s|
    ensures forall x :: x in r <==> x in s
    ensures StrictlySorted(r)
    decreases |s|
  {
    if s == {} then []
    else
      LeastExists(s);
      LeastUnique(s);
      var m :| IsLeast(m, s);
      var rest := SortedSet(s - {m});
      LeastBeforeRest(m, s, rest);
      [m] + rest
  }

  // ------------------------------------------------------------------ paths

  /** `Path::join` / `PathBuf::push` on '/'-separated paths. */
  function PathJoin(base: string, p: string): (r: string)
    ensures |p| > 0 && p[0] == '/' ==> r == p
    ensures IsSuffix(p, r)
  {
    if |p| > 0 && p[0] == '/' then p
    else if base == [] then p
    else if base[|base| - 1] == '/' then base + p
    else base + "/" + p
  }

  /** A relative path joined to a non-empty base stays under that base. */
  lemma PathJoinKeepsBase(base: string, p: string)
    ensures !(|p| > 0 && p[0] == '/') && base != [] ==> IsPrefix(base, PathJoin(base, p))
  {
    if !(|p| > 0 && p[0] == '/') && base != [] {
      var r := PathJoin(base, p);
      if base[|base| - 1] == '/' {
        assert r == base + p;
      } else {
        assert r == base + ("/" + p);
      }
      assert r[..|base|] == base;
    }
  }

  /** A prefix of a prefix is a prefix. */
  lemma PrefixTransitive(a: string, b: string, c: string)
    requires IsPrefix(a, b) && IsPrefix(b, c)
    ensures IsPrefix(a, c)
  {
    assert c[..|a|] == c[..|b|][..|a|];
  }

  /** `Path::extension` of a file name: what follows the last '.', unless that dot leads the name. */
  function Extension(name: string): Option<string> {
    match LastIndexOf(name, '.')
    case None => None
    case Some(p) => if p == 0 then None else Some(name[p + 1..])
  }

  /** `Path::file_stem` of a file name. */
  function FileStem(name: string): string {
    match LastIndexOf(name, '.')
    case None => name
    case Some(p) => if p == 0 then name else name[..p]
  }

  /** The extension is what follows the last dot, the stem what precedes it. */
  lemma StemAndExtension(stem: string, ext: string)
    requires stem != [] && '.' !in ext
    ensures Extension(stem + "." + ext) == Some(ext)
    ensures FileStem(stem + "." + ext) == stem
  {
    var name := stem + "." + ext;
    var p := LastIndexOf(name, '.');
    assert name[|stem|] == '.';
    assert forall j :: |stem| < j < |name| ==> name[j] != '.' by {
      forall j | |stem| < j < |name| ensures name[j] != '.' {
        assert name[j] == ext[j - |stem| - 1];
      }
    }
    assert p.Some?;
    assert p.value == |stem|;
    assert name[|stem| + 1..] == ext;
    assert name[..|stem|] == stem;
  }

  /** Non-empty segments other than "." between the '/' separators. */
  function Segments(parts: seq<string>): seq<string>
    decreases |parts|
  {
    if parts == [] then []
    else (if parts[0] == "" || parts[0] == "." then [] else [parts[0]]) + Segments(parts[1..])
  }

  /** `Path::components`: a root marker for absolute paths, then the named segments. */
  function Components(p: string): seq<string> {
    (if |p| > 0 && p[0] == '/' then ["/"] else []) + Segments(Split(p, '/'))
  }

  /** `Path::starts_with`: whole-component prefix. */
  predicate PathStartsWith(p: string, base: string) {
    var cb := Components(base);
    var cp := Components(p);
    |cb| <= |cp| && cp[..|cb|] == cb
  }

  // ------------------------------------------------------- numbers, bytes

  function DigitChar(d: nat): char
    requires d < 10
  {
    ['0', '1', '2', '3', '4', '5', '6', '7', '8', '9'][d]
  }

  /** `format!("{}", n)` for a non-negative integer. */
  function NatToString(n: nat): (r: string)
    ensures r != []
    ensures forall i :: 0 <= i < |r| ==> '0' <= r[i] <= '9'
  {
    if n < 10 then [DigitChar(n)] else NatToString(n / 10) + [DigitChar(n % 10)]
  }

  /** Bytes taken by one Unicode scalar value in UTF-8. */
  function Utf8Width(c: char): nat {
    if c as int < 0x80 then 1 else if c as int < 0x800 then 2 else if c as int < 0x10000 then 3 else 4
  }

  /** `str::len`: the UTF-8 byte length. */
  function Utf8Len(s: string): nat
    decreases |s|
  {
    if s == [] then 0 else Utf8Width(s[0]) + Utf8Len(s[1..])
  }
}
