/**
 * The Python string primitives the pipeline is built from, on `string` (one
 * `char` per code point, as in Python 3): `str.strip`, `str.lower`/`str.upper`,
 * `in`, `startswith`/`endswith`, `str.find`, `sep.join`, `str.split(c)`,
 * `str.replace` and `str(n)` for a natural number.
 */
module Strings {

  import opened Wrappers

  /** Python's `str.isspace()` for one code point. */
  predicate IsSpace(c: char) {
    c == ' ' || ('\t' <= c <= '\r') || ('\U{1C}' <= c <= '\U{1F}') || c == '\U{85}' || c == '\U{A0}'
    || c == '\U{1680}' || ('\U{2000}' <= c <= '\U{200A}') || c == '\U{2028}' || c == '\U{2029}'
    || c == '\U{202F}' || c == '\U{205F}' || c == '\U{3000}'
  }

  /** Every character is whitespace (so `s.strip()` is empty). */
  predicate IsBlank(s: string) {
    forall i :: 0 <= i < |s| ==> IsSpace(s[i])
  }

  function StripLeft(s: string): (r: string)
    ensures |r| <= |s| && r == s[|s| - |r|..]
    ensures IsBlank(s[..|s| - |r|])
    ensures r != [] ==> !IsSpace(r[0])
  {
    if |s| > 0 && IsSpace(s[0]) then
      var r := StripLeft(s[1..]);
      StripLeftStep(s, r);
      r
    else
      assert s[..0] == [];
      s
  }

  /** Dropping one more leading space keeps the suffix and the blank prefix. */
  lemma StripLeftStep(s: string, r: string)
    requires |s| > 0 && IsSpace(s[0])
    requires |r| <= |s| - 1 && r == s[1..][|s| - 1 - |r|..] && IsBlank(s[1..][..|s| - 1 - |r|])
    ensures r == s[|s| - |r|..] && IsBlank(s[..|s| - |r|])
  {
    var k := |s| - |r|;
    assert s[1..][k - 1..] == s[k..];
    forall i | 0 <= i < k ensures IsSpace(s[..k][i]) {
      if i > 0 {
        assert s[..k][i] == s[1..][..k - 1][i - 1];
      }
    }
  }

  function StripRight(s: string): (r: string)
    ensures |r| <= |s| && r == s[..|r|]
    ensures IsBlank(s[|r|..])
    ensures r != [] ==> !IsSpace(r[|r| - 1])
  {
    if |s| > 0 && IsSpace(s[|s| - 1]) then
      var r := StripRight(s[..|s| - 1]);
      StripRightStep(s, r);
      r
    else
      assert s[|s|..] == [];
      s
  }

  /** Dropping one more trailing space keeps the prefix and the blank suffix. */
  lemma StripRightStep(s: string, r: string)
    requires |s| > 0 && IsSpace(s[|s| - 1])
    requires |r| <= |s| - 1 && r == s[..|s| - 1][..|r|] && IsBlank(s[..|s| - 1][|r|..])
    ensures r == s[..|r|] && IsBlank(s[|r|..])
  {
    var k := |r|;
    assert s[..|s| - 1][..k] == s[..k];
    forall i | 0 <= i < |s| - k ensures IsSpace(s[k..][i]) {
      if k + i < |s| - 1 {
        assert s[k..][i] == s[..|s| - 1][k..][i];
      }
    }
  }

  /** Python's `s.strip()`: drop leading and trailing whitespace. */
  function Strip(s: string): (r: string)
    ensures |r| <= |s|
    ensures r == [] <==> IsBlank(s)
    ensures r != [] ==> !IsSpace(r[0]) && !IsSpace(r[|r| - 1])
  {
    var t := StripLeft(s);
    var r := StripRight(t);
    assert r == [] ==> IsBlank(s) by {
      if r == [] {
        assert t == t[..0] + t[0..];
        assert s == s[..|s| - |t|] + t;
      }
    }
    r
  }

  /** A string that opens with a non-space keeps, once stripped, every character up to its last non-space one. */
  lemma StripKeepsUpTo(s: string, j: nat)
    requires j < |s| && !IsSpace(s[0]) && !IsSpace(s[j])
    ensures |Strip(s)| > j
    ensures Strip(s) == s[..|Strip(s)|]
  {
    assert StripLeft(s) == s;
  }

  /** Stripping a string that already has no whitespace at either end changes nothing. */
  lemma StripTrimmed(s: string)
    requires s != [] && !IsSpace(s[0]) && !IsSpace(s[|s| - 1])
    ensures Strip(s) == s
  {
  }

  /** Whitespace in front of a string does not survive `strip`. */
  lemma {:induction false} StripLeadingBlank(w: string, s: string)
    requires IsBlank(w)
    ensures Strip(w + s) == Strip(s)
  {
    if w != [] {
      assert (w + s)[1..] == w[1..] + s;
      StripLeadingBlank(w[1..], s);
    } else {
      assert w + s == s;
    }
  }

  /** Whitespace after a string does not survive `rstrip`. */
  lemma {:induction false} StripRightBlank(s: string, w: string)
    requires IsBlank(w)
    ensures StripRight(s + w) == StripRight(s)
  {
    if w != [] {
      var w' := w[..|w| - 1];
      assert (s + w)[..|s + w| - 1] == s + w';
      StripRightBlank(s, w');
    } else {
      assert s + w == s;
    }
  }

  /** Whitespace after a string does not survive `strip`. */
  lemma {:induction false} StripTrailingBlank(s: string, w: string)
    requires IsBlank(w)
    ensures Strip(s + w) == Strip(s)
  {
    if |s| > 0 && IsSpace(s[0]) {
      assert (s + w)[1..] == s[1..] + w;
      StripTrailingBlank(s[1..], w);
    } else if s == [] {
      assert s + w == w;
      assert IsBlank(s + w);
    } else {
      assert StripLeft(s + w) == s + w;
      assert StripLeft(s) == s;
      StripRightBlank(s, w);
    }
  }

  /** Python's `c.lower()` for the characters the keyword lists use: Latin A-Z and Cyrillic (U+0400..U+042F). */
  function LowerChar(c: char): char {
    if 'A' <= c <= 'Z' then (c as int + 32) as char
    else if '\U{0410}' <= c <= '\U{042F}' then (c as int + 32) as char
    else if '\U{0400}' <= c <= '\U{040F}' then (c as int + 80) as char
    else c
  }

  /** Python's `c.upper()` on the same repertoire. */
  function UpperChar(c: char): char {
    if 'a' <= c <= 'z' then (c as int - 32) as char
    else if '\U{0430}' <= c <= '\U{044F}' then (c as int - 32) as char
    else if '\U{0450}' <= c <= '\U{045F}' then (c as int - 80) as char
    else c
  }

  function Lower(s: string): (r: string)
    ensures |r| == |s|
  {
    seq(|s|, i requires 0 <= i < |s| => LowerChar(s[i]))
  }

  function Upper(s: string): (r: string)
    ensures |r| == |s|
  {
    seq(|s|, i requires 0 <= i < |s| => UpperChar(s[i]))
  }

  predicate StartsWith(s: string, p: string) {
    |p| <= |s| && s[..|p|] == p
  }

  lemma StartsWithConcat(a: string, b: string)
    ensures StartsWith(a + b, a)
  {
    assert (a + b)[..|a|] == a;
  }

  predicate EndsWith(s: string, p: string) {
    |p| <= |s| && s[|s| - |p|..] == p
  }

  /** `p` occurs in `t` starting at index `i`. */
  predicate OccursAt(t: string, p: string, i: nat) {
    i + |p| <= |t| && t[i..i + |p|] == p
  }

  /** Python's `p in t`. */
  predicate Contains(t: string, p: string) {
    exists i: nat :: i <= |t| && OccursAt(t, p, i)
  }

  function FindFrom(t: string, p: string, k: nat): (r: Option<nat>)
    requires k <= |t|
    decreases |t| - k
    ensures r.Some? ==> k <= r.value && OccursAt(t, p, r.value)
    ensures r.Some? ==> forall j: nat :: k <= j < r.value ==> !OccursAt(t, p, j)
    ensures r.None? ==> forall j: nat :: k <= j ==> !OccursAt(t, p, j)
  {
    if OccursAt(t, p, k) then Some(k)
    else if k == |t| then None
    else FindFrom(t, p, k + 1)
  }

  /** Python's `t.find(p)`: the first index where `p` occurs, if any. */
  function FindFirst(t: string, p: string): (r: Option<nat>)
    ensures r.Some? <==> Contains(t, p)
    ensures r.Some? ==> OccursAt(t, p, r.value) && forall j: nat :: j < r.value ==> !OccursAt(t, p, j)
  {
    FindFrom(t, p, 0)
  }

  /** An occurrence of `p` that uses a character `t` does not have is impossible. */
  lemma AbsentCharNotContained(t: string, p: string, k: nat)
    requires k < |p| && forall i :: 0 <= i < |t| ==> t[i] != p[k]
    ensures !Contains(t, p)
  {
    forall i: nat | i <= |t| ensures !OccursAt(t, p, i) {
      if i + |p| <= |t| {
        assert t[i..i + |p|][k] == t[i + k];
      }
    }
  }

  /** Python's `sep.join(parts)`. */
  function Join(sep: string, parts: seq<string>): string {
    if |parts| == 0 then ""
    else if |parts| == 1 then parts[0]
    else parts[0] + sep + Join(sep, parts[1..])
  }

  /** A joined string begins with its first part. */
  lemma JoinStartsWithFirst(sep: string, parts: seq<string>)
    requires parts != []
    ensures StartsWith(Join(sep, parts), parts[0])
  {
    if |parts| > 1 {
      assert Join(sep, parts) == parts[0] + (sep + Join(sep, parts[1..]));
    }
  }

  /** With a non-empty separator, `sep.join(parts)` is empty only for `[]` and `[""]`. */
  lemma JoinEmpty(sep: string, parts: seq<string>)
    requires sep != []
    ensures Join(sep, parts) == "" <==> parts == [] || parts == [""]
  {
    if |parts| > 1 {
      assert |Join(sep, parts)| >= |sep|;
    }
  }

  /** Python's `s.split(c)` for a one-character separator. */
  function Split(s: string, c: char): (r: seq<string>)
    ensures |r| > 0
  {
    if |s| == 0 then [""]
    else if s[0] == c then [""] + Split(s[1..], c)
    else
      var rest := Split(s[1..], c);
      [[s[0]] + rest[0]] + rest[1..]
  }

  /** `c.join(s.split(c)) == s`. */
  lemma {:induction false} JoinSplit(s: string, c: char)
    ensures Join([c], Split(s, c)) == s
  {
    if |s| > 0 {
      var rest := Split(s[1..], c);
      JoinSplit(s[1..], c);
      if s[0] == c {
        JoinCons([c], "", rest);
      } else {
        JoinPrependHead([c], s[0], rest);
      }
      assert s == [s[0]] + s[1..];
    }
  }

  /** Joining `x` in front of non-empty `rest`. */
  lemma JoinCons(sep: string, x: string, rest: seq<string>)
    requires rest != []
    ensures Join(sep, [x] + rest) == x + sep + Join(sep, rest)
  {
    assert ([x] + rest)[1..] == rest;
  }

  /** Prepending a character to the first part prepends it to the joined string. */
  lemma JoinPrependHead(sep: string, ch: char, parts: seq<string>)
    requires parts != []
    ensures Join(sep, [[ch] + parts[0]] + parts[1..]) == [ch] + Join(sep, parts)
  {
    if |parts| > 1 {
      JoinCons(sep, [ch] + parts[0], parts[1..]);
      JoinCons(sep, parts[0], parts[1..]);
      assert [parts[0]] + parts[1..] == parts;
    }
  }

  /** No piece produced by `split(c)` contains `c`. */
  lemma {:induction false} SplitPiecesFree(s: string, c: char)
    ensures forall k, j :: 0 <= k < |Split(s, c)| && 0 <= j < |Split(s, c)[k]| ==> Split(s, c)[k][j] != c
  {
    if |s| > 0 {
      SplitPiecesFree(s[1..], c);
    }
  }

  /** Python's `s.replace(pat, repl)`: every non-overlapping occurrence, left to right. */
  function ReplaceAll(s: string, pat: string, repl: string): string
    requires pat != []
  {
    if |s| < |pat| then s
    else if s[..|pat|] == pat then repl + ReplaceAll(s[|pat|..], pat, repl)
    else [s[0]] + ReplaceAll(s[1..], pat, repl)
  }

  /** `(name + ".txt").replace(".txt", "")` gives back `name` when `name` itself has no ".txt". */
  lemma {:induction false} RemoveTxtSuffix(name: string)
    requires !Contains(name, ".txt")
    ensures ReplaceAll(name + ".txt", ".txt", "") == name
  {
    var s := name + ".txt";
    if name == [] {
      assert s == ".txt";
      assert s[4..] == [];
    } else {
      assert s[..4] != ".txt" by {
        if |name| >= 4 {
          assert !OccursAt(name, ".txt", 0);
          assert s[..4] == name[..4];
        } else if |name| == 1 {
          assert s[1] == '.';
        } else if |name| == 2 {
          assert s[2] == '.';
        } else {
          assert s[3] == '.';
        }
      }
      assert !Contains(name[1..], ".txt") by {
        forall i: nat | i <= |name[1..]| ensures !OccursAt(name[1..], ".txt", i) {
          if OccursAt(name[1..], ".txt", i) {
            assert name[1..][i..i + 4] == name[i + 1..i + 5];
            assert OccursAt(name, ".txt", i + 1);
          }
        }
      }
      RemoveTxtSuffix(name[1..]);
      assert s[1..] == name[1..] + ".txt";
      assert name == [name[0]] + name[1..];
    }
  }

  /** The renderings of the items `keep` accepts, each item numbered by its position from 1. */
  function KeepNumbered<X>(xs: seq<X>, keep: (nat, X) -> bool, render: (nat, X) -> string): seq<string> {
    if xs == [] then []
    else
      var n := |xs|;
      KeepNumbered(xs[..n - 1], keep, render) + (if keep(n, xs[n - 1]) then [render(n, xs[n - 1])] else [])
  }

  /** Every kept rendering is that of an accepted item under its own number. */
  lemma {:induction false} KeepNumberedSound<X>(xs: seq<X>, keep: (nat, X) -> bool, render: (nat, X) -> string, b: string)
    requires b in KeepNumbered(xs, keep, render)
    ensures exists i: nat :: i < |xs| && keep(i + 1, xs[i]) && b == render(i + 1, xs[i])
  {
    var n := |xs|;
    var init := xs[..n - 1];
    if b in KeepNumbered(init, keep, render) {
      KeepNumberedSound(init, keep, render, b);
      var i: nat :| i < |init| && keep(i + 1, init[i]) && b == render(i + 1, init[i]);
      assert xs[i] == init[i];
    }
  }

  /** Every accepted item's rendering is kept. */
  lemma {:induction false} KeepNumberedComplete<X>(xs: seq<X>, keep: (nat, X) -> bool, render: (nat, X) -> string, i: nat)
    requires i < |xs| && keep(i + 1, xs[i])
    ensures render(i + 1, xs[i]) in KeepNumbered(xs, keep, render)
  {
    var init := xs[..|xs| - 1];
    if i < |init| {
      KeepNumberedComplete(init, keep, render, i);
      assert init[i] == xs[i];
    }
  }

  /** At most one rendering per item. */
  lemma {:induction false} KeepNumberedLength<X>(xs: seq<X>, keep: (nat, X) -> bool, render: (nat, X) -> string)
    ensures |KeepNumbered(xs, keep, render)| <= |xs|
  {
    if xs != [] {
      KeepNumberedLength(xs[..|xs| - 1], keep, render);
    }
  }

  /** Nothing is kept when `keep` accepts no item. */
  lemma {:induction false} KeepNumberedNone<X>(xs: seq<X>, keep: (nat, X) -> bool, render: (nat, X) -> string)
    requires forall i: nat :: i < |xs| ==> !keep(i + 1, xs[i])
    ensures KeepNumbered(xs, keep, render) == []
  {
    if xs != [] {
      var init := xs[..|xs| - 1];
      forall i: nat | i < |init| ensures !keep(i + 1, init[i]) {
        assert init[i] == xs[i];
      }
      KeepNumberedNone(init, keep, render);
    }
  }

  /** How many items satisfy `p`. */
  function CountWhere<X>(xs: seq<X>, p: X -> bool): (n: nat)
    ensures n <= |xs|
  {
    if xs == [] then 0 else CountWhere(xs[..|xs| - 1], p) + (if p(xs[|xs| - 1]) then 1 else 0)
  }

  /** The count is zero iff no item satisfies `p`. */
  lemma {:induction false} CountWhereZero<X>(xs: seq<X>, p: X -> bool)
    ensures CountWhere(xs, p) == 0 <==> forall i :: 0 <= i < |xs| ==> !p(xs[i])
  {
    if xs != [] {
      var init := xs[..|xs| - 1];
      CountWhereZero(init, p);
      if CountWhere(xs, p) == 0 {
        forall i | 0 <= i < |xs| ensures !p(xs[i]) {
          if i < |init| {
            assert xs[i] == init[i];
          }
        }
      } else if CountWhere(init, p) > 0 {
        var i :| 0 <= i < |init| && p(init[i]);
        assert xs[i] == init[i];
      }
    }
  }

  /** Counting one more item adds one exactly when it satisfies `p`. */
  lemma CountWhereStep<X>(xs: seq<X>, p: X -> bool, k: nat)
    requires k < |xs|
    ensures CountWhere(xs[..k + 1], p) == CountWhere(xs[..k], p) + (if p(xs[k]) then 1 else 0)
  {
    assert xs[..k + 1][..k] == xs[..k];
  }

  /** Python's `s[:n]`. */
  function Take<T>(s: seq<T>, n: nat): (r: seq<T>)
    ensures |r| <= n && |r| <= |s|
    ensures r == s[..|r|]
    ensures |s| <= n ==> r == s
  {
    if |s| <= n then s else s[..n]
  }

  function Digit(d: nat): char
    requires d < 10
  {
    ('0' as int + d) as char
  }

  /** Python's `str(n)` for a natural number: its decimal digits. */
  function NatToString(n: nat): (r: string)
    ensures |r| > 0
    ensures forall i :: 0 <= i < |r| ==> '0' <= r[i] <= '9'
  {
    if n < 10 then [Digit(n)] else NatToString(n / 10) + [Digit(n % 10)]
  }

  /** A string of `n` copies of `c`, as Python's `c * n`. */
  function Repeat(c: char, n: nat): (r: string)
    ensures |r| == n && forall i :: 0 <= i < n ==> r[i] == c
  {
    seq(n, _ => c)
  }

  /** `os.path.basename`: the part after the last '/'. */
  function Basename(path: string): (b: string)
    ensures |b| <= |path|
    ensures forall i :: 0 <= i < |b| ==> b[i] != '/'
    ensures EndsWith(path, b)
  {
    if path == [] then []
    else if path[|path| - 1] == '/' then []
    else Basename(path[..|path| - 1]) + [path[|path| - 1]]
  }

  /** A path without '/' is its own base name. */
  lemma {:induction false} BasenameOfName(name: string)
    requires forall i :: 0 <= i < |name| ==> name[i] != '/'
    ensures Basename(name) == name
  {
    if name != [] {
      BasenameOfName(name[..|name| - 1]);
    }
  }

  /** `os.path.join(dir, name)`: an absolute name replaces the directory; otherwise one '/' separates them. */
  function PathJoin(dir: string, name: string): (r: string)
    ensures EndsWith(r, name)
  {
    if name != [] && name[0] == '/' then name
    else if dir == [] || dir[|dir| - 1] == '/' then dir + name
    else dir + "/" + name
  }

  /** What follows a '/' (or starts the path) and holds none is the base name. */
  lemma {:induction false} BasenameAfterSlash(p: string, name: string)
    requires p == [] || p[|p| - 1] == '/'
    requires forall i :: 0 <= i < |name| ==> name[i] != '/'
    ensures Basename(p + name) == name
  {
    if name == [] {
      assert p + name == p;
    } else {
      var init := name[..|name| - 1];
      var last := name[|name| - 1];
      assert name == init + [last];
      assert p + name == (p + init) + [last];
      BasenameAfterSlash(p, init);
      BasenameSnoc(p + init, last);
    }
  }

  /** Appending a character other than '/' appends it to the base name. */
  lemma BasenameSnoc(path: string, c: char)
    requires c != '/'
    ensures Basename(path + [c]) == Basename(path) + [c]
  {
    assert (path + [c])[..|path|] == path;
  }

  /** The base name of `os.path.join(dir, name)` is `name` when `name` holds no '/'. */
  lemma BasenameJoin(dir: string, name: string)
    requires forall i :: 0 <= i < |name| ==> name[i] != '/'
    ensures Basename(PathJoin(dir, name)) == name
  {
    if name != [] && name[0] == '/' {
    } else if dir == [] || dir[|dir| - 1] == '/' {
      BasenameAfterSlash(dir, name);
    } else {
      assert dir + "/" + name == (dir + "/") + name;
      BasenameAfterSlash(dir + "/", name);
    }
  }

  /** The index of the last '.' in `s`, if any. */
  function LastDot(s: string): (r: Option<nat>)
    ensures r.Some? ==> r.value < |s| && s[r.value] == '.' && forall j :: r.value < j < |s| ==> s[j] != '.'
    ensures r.None? ==> forall j :: 0 <= j < |s| ==> s[j] != '.'
  {
    if s == [] then None
    else if s[|s| - 1] == '.' then Some(|s| - 1)
    else LastDot(s[..|s| - 1])
  }

  /** The last dot of `a.b` is the one written there when `b` has none. */
  lemma {:induction false} LastDotOfSuffix(a: string, b: string)
    requires forall i :: 0 <= i < |b| ==> b[i] != '.'
    ensures LastDot(a + "." + b) == Some(|a|)
  {
    if b != [] {
      assert (a + "." + b)[..|a + "." + b| - 1] == a + "." + b[..|b| - 1];
      LastDotOfSuffix(a, b[..|b| - 1]);
    }
  }

  /** Some character before index `d` is not a dot. */
  predicate HasStem(b: string, d: nat)
    requires d <= |b|
  {
    exists j :: 0 <= j < d && b[j] != '.'
  }

  /**
   * `os.path.splitext(path)[1]`: the base name from its last dot on, unless
   * every character before that dot is a dot too (`.bashrc` has no extension).
   */
  function ExtSuffix(path: string): (ext: string)
    ensures ext == [] || ext[0] == '.'
    ensures EndsWith(Basename(path), ext)
  {
    var b := Basename(path);
    match LastDot(b)
    case None => ""
    case Some(d) => if HasStem(b, d) then b[d..] else ""
  }

  /** `os.path.splitext(os.path.basename(path))[0]`: the base name without its extension. */
  function Stem(path: string): (r: string)
    ensures r + ExtSuffix(path) == Basename(path)
  {
    var b := Basename(path);
    b[..|b| - |ExtSuffix(path)|]
  }

  /** `stem.ext` holds no '/' when neither part does. */
  lemma DottedNoSlash(stem: string, ext: string)
    requires forall i :: 0 <= i < |stem| ==> stem[i] != '/'
    requires forall i :: 0 <= i < |ext| ==> ext[i] != '/'
    ensures forall i :: 0 <= i < |stem + "." + ext| ==> (stem + "." + ext)[i] != '/'
  {
    var name := stem + "." + ext;
    forall i | 0 <= i < |name| ensures name[i] != '/' {
      if i < |stem| {
        assert name[i] == stem[i];
      } else if i == |stem| {
        assert name[i] == '.';
      } else {
        assert name[i] == ext[i - |stem| - 1];
      }
    }
  }

  /** ... so it is its own base name. */
  lemma DottedName(stem: string, ext: string)
    requires forall i :: 0 <= i < |stem| ==> stem[i] != '/'
    requires forall i :: 0 <= i < |ext| ==> ext[i] != '/'
    ensures Basename(stem + "." + ext) == stem + "." + ext
  {
    DottedNoSlash(stem, ext);
    BasenameOfName(stem + "." + ext);
  }

  /** The extension of `stem.ext` is `.ext` when the stem does not start with a dot. */
  lemma ExtSuffixOf(stem: string, ext: string)
    requires stem != [] && stem[0] != '.'
    requires forall i :: 0 <= i < |stem| ==> stem[i] != '/'
    requires forall i :: 0 <= i < |ext| ==> ext[i] != '/' && ext[i] != '.'
    ensures ExtSuffix(stem + "." + ext) == "." + ext
  {
    var name := stem + "." + ext;
    DottedName(stem, ext);
    LastDotOfSuffix(stem, ext);
    DottedParts(stem, ext);
    assert HasStem(name, |stem|) by { assert name[0] != '.'; }
    ExtSuffixAt(name, |stem|);
  }

  /** Where the parts of `stem.ext` sit. */
  lemma DottedParts(stem: string, ext: string)
    requires stem != []
    ensures (stem + "." + ext)[0] == stem[0]
    ensures (stem + "." + ext)[|stem|..] == "." + ext
    ensures (stem + "." + ext)[..|stem|] == stem
  {
  }

  /** A base name whose last dot at `d` has a non-dot before it has the extension that starts at `d`. */
  lemma ExtSuffixAt(path: string, d: nat)
    requires LastDot(Basename(path)) == Some(d) && HasStem(Basename(path), d)
    ensures ExtSuffix(path) == Basename(path)[d..]
  {
  }

  /** ... and its stem is `stem`. */
  lemma StemOf(stem: string, ext: string)
    requires stem != [] && stem[0] != '.'
    requires forall i :: 0 <= i < |stem| ==> stem[i] != '/'
    requires forall i :: 0 <= i < |ext| ==> ext[i] != '/' && ext[i] != '.'
    ensures Stem(stem + "." + ext) == stem
  {
    var name := stem + "." + ext;
    ExtSuffixOf(stem, ext);
    DottedName(stem, ext);
    DottedParts(stem, ext);
    assert |name| - |ExtSuffix(name)| == |stem|;
  }
}
