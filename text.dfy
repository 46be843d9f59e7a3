/**
 * The JavaScript string operations the system relies on: `trim`, the `\s` class,
 * `toLowerCase` on the ASCII range, `startsWith`, `includes`, `slice`,
 * `replace(/\s+/g, ' ')`, `split`/`join` on a separator, and number formatting.
 */
module Text {

  /** The characters matched by the JavaScript regular-expression class `\s`,
      which are also the characters `String.prototype.trim` removes. */
  predicate IsSpace(c: char) {
    || c == ' ' || c == '\t' || c == '\n' || c == '\r'
    || c == '\U{000B}' || c == '\U{000C}' || c == '\U{00A0}' || c == '\U{1680}'
    || ('\U{2000}' <= c <= '\U{200A}')
    || c == '\U{2028}' || c == '\U{2029}' || c == '\U{202F}' || c == '\U{205F}'
    || c == '\U{3000}' || c == '\U{FEFF}'
  }

  /** The two classes of characters the source strips from the ends of a string. */
  datatype CharClass = Whitespace | Slash

  predicate InClass(c: char, k: CharClass) {
    match k
    case Whitespace => IsSpace(c)
    case Slash => c == '/'
  }

  /** Removes the longest prefix made of `k` characters (`replace(/^\/+/, '')`, `trimStart`). */
  function TrimStart(s: string, k: CharClass): (r: string)
    ensures |r| <= |s| && r == s[|s| - |r|..]
    ensures r == [] || !InClass(r[0], k)
    ensures forall i :: 0 <= i < |s| - |r| ==> InClass(s[i], k)
  {
    if s != [] && InClass(s[0], k) then TrimStart(s[1..], k) else s
  }

  /** Removes the longest suffix made of `k` characters (`replace(/\/+$/, '')`, `trimEnd`). */
  function TrimEnd(s: string, k: CharClass): (r: string)
    ensures |r| <= |s| && r == s[..|r|]
    ensures r == [] || !InClass(r[|r| - 1], k)
    ensures forall i :: |r| <= i < |s| ==> InClass(s[i], k)
  {
    if s != [] && InClass(s[|s| - 1], k) then TrimEnd(s[..|s| - 1], k) else s
  }

  lemma TrimStartNoop(s: string, k: CharClass)
    requires s == [] || !InClass(s[0], k)
    ensures TrimStart(s, k) == s
  {
  }

  lemma TrimEndNoop(s: string, k: CharClass)
    requires s == [] || !InClass(s[|s| - 1], k)
    ensures TrimEnd(s, k) == s
  {
  }

  /** `trimEnd` of a string with one more character in front. */
  lemma {:induction false} TrimEndCons(c: char, t: string, k: CharClass)
    ensures TrimEnd([c] + t, k) == if TrimEnd(t, k) == [] && InClass(c, k) then [] else [c] + TrimEnd(t, k)
    decreases |t|
  {
    var s := [c] + t;
    if t == [] {
      assert s == [c];
      assert s[..0] == [];
    } else {
      assert s[|s| - 1] == t[|t| - 1];
      if InClass(t[|t| - 1], k) {
        var u := t[..|t| - 1];
        assert s[..|s| - 1] == [c] + u;
        assert TrimEnd(s, k) == TrimEnd([c] + u, k);
        assert TrimEnd(t, k) == TrimEnd(u, k);
        TrimEndCons(c, u, k);
      } else {
        assert TrimEnd(s, k) == s;
        assert TrimEnd(t, k) == t;
      }
    }
  }

  /** `String.prototype.trim`. */
  function Trim(s: string): string {
    TrimEnd(TrimStart(s, Whitespace), Whitespace)
  }

  /** A string whose first character is not whitespace keeps its start under `trimEnd`,
      and what follows a fixed non-blank head is trimmed on its own. */
  lemma {:induction false} TrimEndAppend(a: string, b: string, k: CharClass)
    requires a != [] && !InClass(a[|a| - 1], k)
    ensures TrimEnd(a + b, k) == a + TrimEnd(b, k)
    decreases |b|
  {
    if b != [] && InClass(b[|b| - 1], k) {
      assert (a + b)[..|a + b| - 1] == a + b[..|b| - 1];
      TrimEndAppend(a, b[..|b| - 1], k);
    }
  }

  /** A string whose first character is outside the class keeps whatever precedes it
      under `trimEnd`. */
  lemma {:induction false} TrimEndBehind(p: string, b: string, k: CharClass)
    requires b != [] && !InClass(b[0], k)
    ensures TrimEnd(p + b, k) == p + TrimEnd(b, k)
    decreases |b|
  {
    if InClass(b[|b| - 1], k) {
      assert (p + b)[..|p + b| - 1] == p + b[..|b| - 1];
      TrimEndBehind(p, b[..|b| - 1], k);
    }
  }

  function LowerChar(c: char): char {
    if 'A' <= c <= 'Z' then (c as int + 32) as char else c
  }

  /** `toLowerCase` restricted to ASCII letters; see README for why this is exact here. */
  function Lower(s: string): string {
    seq(|s|, i requires 0 <= i < |s| => LowerChar(s[i]))
  }

  lemma LowerAppend(a: string, b: string)
    ensures Lower(a + b) == Lower(a) + Lower(b)
  {
  }

  predicate StartsWith(s: string, p: string) {
    |p| <= |s| && s[..|p|] == p
  }

  lemma StartsWithAppend(p: string, rest: string)
    ensures StartsWith(p + rest, p)
  {
    assert (p + rest)[..|p|] == p;
  }

  lemma StartsWithExtend(s: string, p: string, t: string)
    requires StartsWith(s, p)
    ensures StartsWith(s + t, p)
  {
    assert (s + t)[..|p|] == s[..|p|];
  }

  predicate EndsWith(s: string, p: string) {
    |p| <= |s| && s[|s| - |p|..] == p
  }

  lemma EndsWithAppend(rest: string, p: string)
    ensures EndsWith(rest + p, p)
  {
    assert (rest + p)[|rest|..] == p;
  }

  predicate OccursAt(s: string, p: string, i: nat) {
    i + |p| <= |s| && s[i..i + |p|] == p
  }

  /** `String.prototype.includes`. */
  predicate Contains(s: string, p: string) {
    exists i: nat | i <= |s| :: OccursAt(s, p, i)
  }

  lemma ContainsMiddle(a: string, p: string, b: string)
    ensures Contains(a + p + b, p)
  {
    assert OccursAt(a + p + b, p, |a|);
  }

  lemma ContainsEnd(a: string, p: string)
    ensures Contains(a + p, p)
  {
    assert OccursAt(a + p, p, |a|);
  }

  lemma ContainsExtend(s: string, p: string, t: string)
    requires Contains(s, p)
    ensures Contains(s + t, p)
  {
    var i: nat :| i <= |s| && OccursAt(s, p, i);
    assert (s + t)[i..i + |p|] == s[i..i + |p|];
    assert OccursAt(s + t, p, i);
  }

  /** A pattern with a character the string lacks does not occur in it. */
  lemma AbsentNotContained(s: string, p: string, k: nat)
    requires k < |p| && p[k] !in s
    ensures !Contains(s, p)
  {
    forall i: nat | i <= |s| && OccursAt(s, p, i)
      ensures s[i + k] in s
    {
    }
  }

  /** `slice(0, n)`. */
  function Prefix(s: string, n: nat): (r: string)
    ensures r == s[..if |s| <= n then |s| else n]
  {
    if |s| <= n then s else s[..n]
  }

  /** `replace(/\s+/g, ' ')`: every maximal run of whitespace becomes one space. */
  function CollapseSpaces(s: string): (r: string)
    ensures s == [] <==> r == []
    ensures s != [] && !IsSpace(s[0]) ==> r[0] == s[0]
    ensures s != [] && IsSpace(s[0]) ==> r[0] == ' '
    decreases |s|
  {
    if s == [] then []
    else if IsSpace(s[0]) then
      var rest := TrimStart(s, Whitespace);
      assert |rest| < |s|;
      " " + CollapseSpaces(rest)
    else [s[0]] + CollapseSpaces(s[1..])
  }

  /** Collapsing leaves a leading run of non-space characters as it is. */
  lemma {:induction false} CollapseKeepsWord(p: string, t: string)
    requires forall i :: 0 <= i < |p| ==> !IsSpace(p[i])
    ensures CollapseSpaces(p + t) == p + CollapseSpaces(t)
    decreases |p|
  {
    if p != [] {
      assert (p + t)[1..] == p[1..] + t;
      CollapseKeepsWord(p[1..], t);
      assert [p[0]] + p[1..] == p;
    } else {
      assert p + t == t;
    }
  }

  /** Trimming skips a leading run of whitespace whatever follows it. */
  lemma {:induction false} TrimStartRun(ws: string, t: string)
    requires forall i :: 0 <= i < |ws| ==> IsSpace(ws[i])
    ensures TrimStart(ws + t, Whitespace) == TrimStart(t, Whitespace)
    decreases |ws|
  {
    if ws == [] {
      assert ws + t == t;
    } else {
      assert (ws + t)[1..] == ws[1..] + t;
      TrimStartRun(ws[1..], t);
    }
  }

  /** Collapsing turns a leading run of whitespace, however long, into one space. */
  lemma CollapseLeadingRun(ws: string, t: string)
    requires ws != [] && forall i :: 0 <= i < |ws| ==> IsSpace(ws[i])
    requires t == [] || !IsSpace(t[0])
    ensures CollapseSpaces(ws + t) == " " + CollapseSpaces(t)
  {
    TrimStartRun(ws, t);
    TrimStartNoop(t, Whitespace);
  }

  /** Number of occurrences of `c` in `s`. */
  function Count(s: string, c: char): nat {
    if s == [] then 0 else (if s[0] == c then 1 else 0) + Count(s[1..], c)
  }

  lemma {:induction false} CountAppend(a: string, b: string, c: char)
    ensures Count(a + b, c) == Count(a, c) + Count(b, c)
    decreases |a|
  {
    if a != [] {
      assert (a + b)[0] == a[0] && (a + b)[1..] == a[1..] + b;
      CountAppend(a[1..], b, c);
    } else {
      assert a + b == b;
    }
  }

  /** `parts.join(sep)`. */
  function Join(parts: seq<string>, sep: string): string
    decreases |parts|
  {
    if parts == [] then ""
    else if |parts| == 1 then parts[0]
    else parts[0] + sep + Join(parts[1..], sep)
  }

  /** Joining with one more part at the end. */
  lemma {:induction false} JoinSnoc(parts: seq<string>, last: string, sep: string)
    ensures Join(parts + [last], sep) == if parts == [] then last else Join(parts, sep) + sep + last
    decreases |parts|
  {
    if |parts| == 1 {
      assert parts + [last] == [parts[0], last];
      assert [parts[0], last][1..] == [last];
    } else if |parts| > 1 {
      assert (parts + [last])[1..] == parts[1..] + [last];
      JoinSnoc(parts[1..], last, sep);
    }
  }

  /** `s.split(sep)` for a one-character separator. */
  function Split(s: string, sep: char): (parts: seq<string>)
    ensures |parts| >= 1
    ensures forall i :: 0 <= i < |parts| ==> sep !in parts[i]
    ensures forall i, j :: 0 <= i < |parts| && 0 <= j < |parts[i]| ==> parts[i][j] in s
    decreases |s|
  {
    if s == [] then [""]
    else
      var rest := Split(s[1..], sep);
      if s[0] == sep then [""] + rest
      else [[s[0]] + rest[0]] + rest[1..]
  }

  /** Joining what `split` produced gives back the original string. */
  lemma {:induction false} JoinSplit(s: string, sep: char)
    ensures Join(Split(s, sep), [sep]) == s
    decreases |s|
  {
    if s != [] {
      var rest := Split(s[1..], sep);
      JoinSplit(s[1..], sep);
      if s[0] != sep {
        var parts := Split(s, sep);
        if |rest| > 1 {
          assert parts[1..] == rest[1..];
          assert Join(parts, [sep]) == ([s[0]] + rest[0]) + [sep] + Join(rest[1..], [sep]);
        }
      }
    }
  }

  /** `split` yields one more piece than there are separators. */
  lemma {:induction false} SplitLength(s: string, sep: char)
    ensures |Split(s, sep)| == Count(s, sep) + 1
    decreases |s|
  {
    if s != [] {
      SplitLength(s[1..], sep);
    }
  }

  /** Joining pieces that hold no separator puts exactly one separator between neighbours. */
  lemma {:induction false} CountJoin(parts: seq<string>, sep: char)
    requires |parts| >= 1
    requires forall i :: 0 <= i < |parts| ==> sep !in parts[i]
    ensures Count(Join(parts, [sep]), sep) == |parts| - 1
    decreases |parts|
  {
    CountAbsent(parts[0], sep);
    if |parts| > 1 {
      CountJoin(parts[1..], sep);
      CountAppend(parts[0] + [sep], Join(parts[1..], [sep]), sep);
      CountAppend(parts[0], [sep], sep);
    }
  }

  lemma {:induction false} CountAbsent(s: string, c: char)
    requires c !in s
    ensures Count(s, c) == 0
    decreases |s|
  {
    if s != [] {
      CountAbsent(s[1..], c);
    }
  }

  function Digit(d: nat): char
    requires d < 10
  {
    "0123456789"[d]
  }

  /** Decimal rendering of a number, as a template literal does. */
  function NatToString(n: nat): (r: string)
    ensures r != []
    ensures forall i :: 0 <= i < |r| ==> '0' <= r[i] <= '9'
    decreases n
  {
    if n < 10 then [Digit(n)] else NatToString(n / 10) + [Digit(n % 10)]
  }

  function IntToString(n: int): string {
    if n < 0 then "-" + NatToString(-n) else NatToString(n)
  }

  /** The test `/^https?:\/\//i`. */
  predicate HasHttpScheme(s: string) {
    StartsWith(Lower(s), "http://") || StartsWith(Lower(s), "https://")
  }

  /** A URL with a scheme starts with `h` or `H`, so neither whitespace nor a slash. */
  lemma SchemeFirstChar(s: string)
    requires HasHttpScheme(s)
    ensures |s| >= 7 && (s[0] == 'h' || s[0] == 'H')
  {
    assert Lower(s)[0] == LowerChar(s[0]) == 'h';
  }

  lemma HttpsPrefixHasScheme(rest: string)
    ensures HasHttpScheme("https://" + rest)
  {
    LowerAppend("https://", rest);
    assert Lower("https://") == "https://";
    StartsWithAppend("https://", Lower(rest));
  }

  /** The scheme test ignores case: it holds exactly when the first seven characters spell
      `http://`, or the first eight `https://`, in any mix of upper and lower case. */
  lemma SchemeAnyCase(s: string)
    ensures HasHttpScheme(s) <==>
      || (|s| >= 7 && Lower(s[..7]) == "http://")
      || (|s| >= 8 && Lower(s[..8]) == "https://")
  {
    if |s| >= 7 {
      assert Lower(s)[..7] == Lower(s[..7]);
    }
    if |s| >= 8 {
      assert Lower(s)[..8] == Lower(s[..8]);
    }
  }

  /** `HTTPS://host` and `Http://host` pass the test as `https://host` does. */
  lemma UpperCaseSchemesAccepted(rest: string)
    ensures HasHttpScheme("HTTPS://" + rest)
    ensures HasHttpScheme("Http://" + rest)
  {
    var upper := "HTTPS://" + rest;
    var mixed := "Http://" + rest;
    assert upper[..8] == "HTTPS://";
    assert mixed[..7] == "Http://";
    assert Lower("HTTPS://") == "https://";
    assert Lower("Http://") == "http://";
    SchemeAnyCase(upper);
    SchemeAnyCase(mixed);
  }
}
