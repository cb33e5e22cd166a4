/**
 * The Python `str` built-ins and `posixpath` helpers the modelled code relies on:
 * `strip`, `lower`, `startswith`, `endswith`, `in`, `split`, `join`, `os.path.join`,
 * `os.path.split(...)[1]` and `os.path.abspath` (without `..` normalisation).
 */
module PyStr {
  import opened Wrappers

  /** Python's `str.isspace()` for one character: the characters `strip()` removes. */
  predicate IsSpace(c: char) {
    || c == ' '
    || ('\t' <= c <= '\r')
    || ('\U{1C}' <= c <= '\U{1F}')
    || c == '\U{85}' || c == '\U{A0}' || c == '\U{1680}'
    || ('\U{2000}' <= c <= '\U{200A}')
    || c == '\U{2028}' || c == '\U{2029}' || c == '\U{202F}' || c == '\U{205F}' || c == '\U{3000}'
  }

  /** `s.lstrip()` */
  function TrimLeft(s: string): string {
    if s != [] && IsSpace(s[0]) then TrimLeft(s[1..]) else s
  }

  /** `s.rstrip()` */
  function TrimRight(s: string): string {
    if s != [] && IsSpace(s[|s| - 1]) then TrimRight(s[..|s| - 1]) else s
  }

  /** `s.strip()` */
  function Strip(s: string): string {
    TrimRight(TrimLeft(s))
  }

  /** `lstrip()` removes a prefix of whitespace and leaves a string that does not start with any. */
  lemma {:induction false} TrimLeftFacts(s: string)
    ensures var r := TrimLeft(s);
      |r| <= |s| && r == s[|s| - |r|..] && (r != [] ==> !IsSpace(r[0]))
      && forall i :: 0 <= i < |s| - |r| ==> IsSpace(s[i])
    decreases |s|
  {
    if s != [] && IsSpace(s[0]) {
      var t := s[1..];
      TrimLeftFacts(t);
      var r := TrimLeft(t);
      assert TrimLeft(s) == r;
      assert t[|t| - |r|..] == s[|s| - |r|..];
      forall i | 0 <= i < |s| - |r|
        ensures IsSpace(s[i])
      {
        if i > 0 {
          assert s[i] == t[i - 1];
        }
      }
    }
  }

  /** `rstrip()` removes a suffix of whitespace and leaves a string that does not end with any. */
  lemma TrimRightFacts(s: string)
    ensures var r := TrimRight(s);
      |r| <= |s| && r == s[..|r|] && (r != [] ==> !IsSpace(r[|r| - 1]))
      && forall i :: |r| <= i < |s| ==> IsSpace(s[i])
  {
    if s != [] && IsSpace(s[|s| - 1]) {
      TrimRightFacts(s[..|s| - 1]);
    }
  }

  /** `strip()` leaves no whitespace at either end. */
  lemma StripFacts(s: string)
    ensures var r := Strip(s);
      |r| <= |s| && (r != [] ==> !IsSpace(r[0]) && !IsSpace(r[|r| - 1]))
  {
    TrimLeftFacts(s);
    TrimRightFacts(TrimLeft(s));
  }

  /** A string with no surrounding whitespace is its own `strip()`. */
  lemma StripOfStripped(s: string)
    requires s != [] ==> !IsSpace(s[0]) && !IsSpace(s[|s| - 1])
    ensures Strip(s) == s
  {
  }

  /** One whitespace character on each side of a stripped text is removed by `strip()`. */
  lemma StripPadded(l: char, s: string, r: char)
    requires IsSpace(l) && IsSpace(r)
    requires s != [] && !IsSpace(s[0]) && !IsSpace(s[|s| - 1])
    ensures Strip([l] + s + [r]) == s
  {
    var t := [l] + s + [r];
    assert t[0] == l && t[1..] == s + [r];
    DropFirstOfAppend(s, [r]);
    assert TrimLeft(s + [r]) == s + [r];
    assert TrimLeft(t) == s + [r];
    DropLastOfAppend(s, [r]);
    assert TrimRight(s) == s;
    assert TrimRight(s + [r]) == TrimRight(s);
  }

  predicate AllSpace(s: string) {
    forall i :: 0 <= i < |s| ==> IsSpace(s[i])
  }

  /** `lstrip()` removes any run of whitespace in front of a text that starts with none. */
  lemma {:induction false} TrimLeftOfRun(l: string, s: string)
    requires AllSpace(l) && s != [] && !IsSpace(s[0])
    ensures TrimLeft(l + s) == s
    decreases |l|
  {
    if l == [] {
      assert l + s == s;
    } else {
      assert (l + s)[0] == l[0] && (l + s)[1..] == l[1..] + s;
      TrimLeftOfRun(l[1..], s);
    }
  }

  /** `rstrip()` removes any run of whitespace after a text that ends with none. */
  lemma {:induction false} TrimRightOfRun(s: string, r: string)
    requires AllSpace(r) && s != [] && !IsSpace(s[|s| - 1])
    ensures TrimRight(s + r) == s
    decreases |r|
  {
    if r == [] {
      assert s + r == s;
    } else {
      var t := s + r;
      assert t[|t| - 1] == r[|r| - 1] && t[..|t| - 1] == s + r[..|r| - 1];
      TrimRightOfRun(s, r[..|r| - 1]);
    }
  }

  /** `strip()` removes whitespace runs of any length on both sides of a stripped text. */
  lemma StripOfRuns(l: string, s: string, r: string)
    requires AllSpace(l) && AllSpace(r)
    requires s != [] && !IsSpace(s[0]) && !IsSpace(s[|s| - 1])
    ensures Strip(l + s + r) == s
  {
    assert l + s + r == l + (s + r);
    assert (s + r)[0] == s[0];
    TrimLeftOfRun(l, s + r);
    TrimRightOfRun(s, r);
  }

  /** `strip()` gives "" exactly for the strings made only of whitespace. */
  lemma StripEmptyIffBlank(s: string)
    ensures Strip(s) == [] <==> forall i :: 0 <= i < |s| ==> IsSpace(s[i])
  {
    TrimLeftFacts(s);
    var l := TrimLeft(s);
    TrimRightFacts(l);
    if Strip(s) == [] {
      if l != [] {
        assert false;
      }
    } else {
      var r := Strip(s);
      assert r == l[..|r|];
      assert s[|s| - |l|] == r[0];
    }
  }

  function LowerChar(c: char): char {
    if 'A' <= c <= 'Z' then (c as int + 32) as char else c
  }

  /** `s.lower()`, for ASCII letters. */
  function Lower(s: string): (r: string)
    ensures |r| == |s|
    ensures forall i :: 0 <= i < |s| ==> r[i] == LowerChar(s[i])
  {
    if s == [] then [] else Lower(s[..|s| - 1]) + [LowerChar(s[|s| - 1])]
  }

  /** `s.strip().lower()`: the normal form used for every case-insensitive comparison. */
  function Norm(s: string): string {
    Lower(Strip(s))
  }

  /** Python truthiness of a string: false only for "". */
  predicate Truthy(s: string) {
    s != []
  }

  /** `not s or s.strip() == ''` */
  predicate IsBlank(s: string) {
    Strip(s) == []
  }

  predicate StartsWith(s: string, p: string) {
    |p| <= |s| && s[..|p|] == p
  }

  /** Starting with a one-character string is having that character first. */
  lemma StartsWithChar(s: string, c: char)
    ensures StartsWith(s, [c]) <==> s != [] && s[0] == c
  {
    if s != [] {
      assert s[..1] == [s[0]];
    }
  }

  predicate EndsWith(s: string, p: string) {
    |p| <= |s| && s[|s| - |p|..] == p
  }

  /** `t in s` for strings */
  predicate Contains(s: string, t: string)
    decreases |s|
  {
    StartsWith(s, t) || (s != [] && Contains(s[1..], t))
  }

  lemma {:induction false} ContainsAppend(a: string, b: string, t: string)
    requires Contains(b, t)
    ensures Contains(a + b, t)
    decreases |a|
  {
    if a != [] {
      DropFirstOfAppend(a, b);
      ContainsAppend(a[1..], b, t);
    } else {
      assert a + b == b;
    }
  }

  /** `s.find(c)` when `c` occurs, else `|s|`. */
  function IndexOf(s: string, c: char): (i: nat)
    ensures i <= |s|
    ensures i < |s| ==> s[i] == c
  {
    if s == [] then 0 else if s[0] == c then 0 else 1 + IndexOf(s[1..], c)
  }

  /** No earlier character is `c`. */
  lemma {:induction false} IndexOfFirst(s: string, c: char)
    ensures forall j :: 0 <= j < IndexOf(s, c) ==> s[j] != c
  {
    if s != [] && s[0] != c {
      IndexOfFirst(s[1..], c);
      assert forall j :: 1 <= j < IndexOf(s, c) ==> s[j] == s[1..][j - 1];
    }
  }

  /** A character that does not occur is found at the end. */
  lemma {:induction false} IndexOfAbsent(s: string, c: char)
    requires c !in s
    ensures IndexOf(s, c) == |s|
  {
    if s != [] {
      assert s[0] in s && forall d :: d in s[1..] ==> d in s;
      IndexOfAbsent(s[1..], c);
    }
  }

  /** `s.split(c)` for a one-character separator. */
  function SplitOn(s: string, c: char): (parts: seq<string>)
    ensures |parts| >= 1
    decreases |s|
  {
    var i := IndexOf(s, c);
    if i == |s| then [s] else [s[..i]] + SplitOn(s[i + 1..], c)
  }

  /** `sep.join(parts)` */
  function JoinWith(parts: seq<string>, sep: string): string {
    if parts == [] then ""
    else if |parts| == 1 then parts[0]
    else parts[0] + sep + JoinWith(parts[1..], sep)
  }

  /** Joining parts by a one-character separator and splitting on that character gives
      the parts back when none of them holds it. */
  lemma {:induction false} JoinSplitRoundTrip(parts: seq<string>, c: char)
    requires parts != []
    requires forall i :: 0 <= i < |parts| ==> c !in parts[i]
    ensures SplitOn(JoinWith(parts, [c]), c) == parts
    decreases |parts|
  {
    IndexOfAbsent(parts[0], c);
    if |parts| > 1 {
      var t := JoinWith(parts[1..], [c]);
      assert JoinWith(parts, [c]) == parts[0] + [c] + t;
      SplitOnAfter(parts[0], t, c);
      JoinSplitRoundTrip(parts[1..], c);
      assert parts == [parts[0]] + parts[1..];
    }
  }

  /** Splitting at the first separator, when the text before it holds none. */
  lemma SplitOnAfter(a: string, t: string, c: char)
    requires c !in a
    ensures SplitOn(a + [c] + t, c) == [a] + SplitOn(t, c)
  {
    var s := a + [c] + t;
    IndexOfAbsent(a, c);
    assert s == a + ([c] + t);
    IndexOfPrefix(a, [c] + t, c);
    assert s[|a| + 1..] == t;
    assert s[..|a|] == a;
  }

  /** Appending a part adds the separator and that part. */
  lemma {:induction false} JoinWithSnoc(parts: seq<string>, x: string, sep: string)
    requires parts != []
    ensures JoinWith(parts + [x], sep) == JoinWith(parts, sep) + sep + x
  {
    if |parts| == 1 {
      assert (parts + [x])[1..] == [x];
    } else {
      assert (parts + [x])[1..] == parts[1..] + [x];
      JoinWithSnoc(parts[1..], x, sep);
    }
  }

  /** Joining one more element of a prefix adds the separator and that element. */
  lemma JoinWithPrefixStep(t: seq<string>, n: nat, sep: string)
    requires 1 < n <= |t|
    ensures JoinWith(t[..n], sep) == JoinWith(t[..n - 1], sep) + (sep + t[n - 1])
  {
    SliceSnoc(t, 0, n - 1);
    JoinWithSnoc(t[..n - 1], t[n - 1], sep);
  }

  /** `''.join(parts)` */
  function Concat(parts: seq<string>): string {
    if parts == [] then "" else Concat(parts[..|parts| - 1]) + parts[|parts| - 1]
  }

  lemma {:induction false} ConcatAppend(a: seq<string>, b: seq<string>)
    ensures Concat(a + b) == Concat(a) + Concat(b)
    decreases |b|
  {
    if b == [] {
      assert a + b == a;
    } else {
      var init := b[..|b| - 1];
      DropLastOfAppend(a, b);
      ConcatAppend(a, init);
      Assoc(Concat(a), Concat(init), b[|b| - 1]);
    }
  }

  /** `posixpath.join(a, b)` */
  function PathJoin(a: string, b: string): string {
    if StartsWith(b, "/") then b
    else if a == [] || EndsWith(a, "/") then a + b
    else a + "/" + b
  }

  /** `os.path.split(p)[1]`: everything after the last '/'. */
  function Tail(p: string): string {
    if p == [] || p[|p| - 1] == '/' then [] else Tail(p[..|p| - 1]) + [p[|p| - 1]]
  }

  /** A name without '/' is its own last component. */
  lemma {:induction false} TailWithoutSlash(s: string)
    requires '/' !in s
    ensures Tail(s) == s
  {
    if s != [] {
      var init := s[..|s| - 1];
      assert s == init + [s[|s| - 1]];
      assert forall c :: c in init ==> c in s;
      TailWithoutSlash(init);
    }
  }

  lemma IndexOfPrefix(a: string, b: string, c: char)
    ensures IndexOf(a + b, c) == if IndexOf(a, c) < |a| then IndexOf(a, c) else |a| + IndexOf(b, c)
  {
    if a == [] {
      assert a + b == b;
    } else if a[0] != c {
      assert (a + b)[1..] == a[1..] + b;
      IndexOfPrefix(a[1..], b, c);
    }
  }

  /** Whatever precedes the last '/', the last component is the one after it. */
  lemma {:induction false} TailJoin(a: string, b: string)
    ensures Tail(a + "/" + b) == Tail(b)
    decreases |b|
  {
    var h := a + "/";
    assert a + "/" + b == h + b;
    if b == [] {
      assert h + b == h && h[|h| - 1] == '/';
    } else {
      DropLastOfAppend(h, b);
      TailJoin(a, b[..|b| - 1]);
      assert a + "/" + b[..|b| - 1] == h + b[..|b| - 1];
    }
  }

  /** `os.path.join` keeps the last component of its second argument. */
  lemma TailOfPathJoin(a: string, b: string)
    ensures Tail(PathJoin(a, b)) == Tail(b)
  {
    if !StartsWith(b, "/") && a != [] {
      if EndsWith(a, "/") {
        var a' := a[..|a| - 1];
        assert a == a' + "/";
        assert a + b == a' + "/" + b;
        TailJoin(a', b);
      } else {
        TailJoin(a, b);
      }
    } else if a == [] {
      assert a + b == b;
    }
  }

  /** A path that starts with '/' is not blank. */
  lemma AbsoluteNotBlank(s: string)
    requires StartsWith(s, "/")
    ensures !IsBlank(s)
  {
    StripEmptyIffBlank(s);
    assert s[0] == '/' && !IsSpace(s[0]);
  }

  /** `os.path.abspath(p)`, without collapsing `.` and `..`. */
  function AbsPath(cwd: string, p: string): string {
    if StartsWith(p, "/") then p else PathJoin(cwd, p)
  }

  /** Joining onto an absolute directory gives an absolute path. */
  lemma PathJoinAbsolute(a: string, b: string)
    requires StartsWith(a, "/")
    ensures StartsWith(PathJoin(a, b), "/")
  {
    if !StartsWith(b, "/") {
      if a == [] || EndsWith(a, "/") {
        assert (a + b)[..1] == a[..1];
      } else {
        assert (a + "/" + b)[..1] == a[..1];
      }
    }
  }

  /** `'{}'.format(x)` for a value that may be `None`. */
  function Format(o: Option<string>): string {
    match o
    case None => "None"
    case Some(s) => s
  }
}
