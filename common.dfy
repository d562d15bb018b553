// Shared value model: Python's dynamic values as they appear in the
// collectors' dictionaries, their truthiness, and the small string and number
// helpers (ASCII case mapping, whitespace, slicing, rounding) the collectors use.

module Values {

  datatype Option<T> = None | Some(value: T)

  datatype Result<T> = Ok(value: T) | Err(error: string)

  /** A Python value as it can appear in a JSON-like dictionary. Python ints
    * and floats are both `Num`; bools are kept apart because they print and
    * test differently. */
  datatype Json =
    | Null
    | Bool(b: bool)
    | Num(n: real)
    | Str(s: string)
    | Arr(items: seq<Json>)
    | Obj(fields: map<string, Json>)

  /** Python's `bool(x)`. */
  predicate Truthy(j: Json) {
    match j
    case Null => false
    case Bool(b) => b
    case Num(n) => n != 0.0
    case Str(s) => |s| > 0
    case Arr(a) => |a| > 0
    case Obj(m) => |m| > 0
  }

  /** `isinstance(x, (int, float))`, which also accepts booleans. */
  predicate IsNumber(j: Json) {
    j.Num? || j.Bool?
  }

  function NumValue(j: Json): real
    requires IsNumber(j)
  {
    if j.Bool? then (if j.b then 1.0 else 0.0) else j.n
  }

  /** `d.get(k)`: a missing key reads as None. */
  function Get(m: map<string, Json>, k: string): Json {
    if k in m then m[k] else Null
  }

  /** `d.get(k, default)`. */
  function GetOr(m: map<string, Json>, k: string, default: Json): Json {
    if k in m then m[k] else default
  }

  /** Python's `a or b`, which returns an operand, not a bool. */
  function Or(a: Json, b: Json): Json {
    if Truthy(a) then a else b
  }

  /** `len(x)` where it is defined. */
  predicate HasLen(j: Json) {
    j.Str? || j.Arr? || j.Obj?
  }

  function Len(j: Json): nat
    requires HasLen(j)
  {
    match j
    case Str(s) => |s|
    case Arr(a) => |a|
    case Obj(m) => |m|
  }

  function StrList(ss: seq<string>): (r: Json)
    ensures r.Arr? && |r.items| == |ss|
    ensures forall i :: 0 <= i < |ss| ==> r.items[i] == Str(ss[i])
  {
    Arr(seq(|ss|, i requires 0 <= i < |ss| => Str(ss[i])))
  }

  /** A dictionary of strings as a JSON object. */
  function StrMap(m: map<string, string>): (r: Json)
    ensures r.Obj? && r.fields.Keys == m.Keys
    ensures forall k :: k in m ==> r.fields[k] == Str(m[k])
  {
    Obj(map k | k in m :: Str(m[k]))
  }

  /** Reads a JSON array of strings back, failing on any other shape. */
  function AsStrList(j: Json): Option<seq<string>> {
    if j.Arr? && forall i :: 0 <= i < |j.items| ==> j.items[i].Str? then
      Some(seq(|j.items|, i requires 0 <= i < |j.items| => j.items[i].s))
    else None
  }

  lemma StrListRoundTrip(ss: seq<string>)
    ensures AsStrList(StrList(ss)) == Some(ss)
  {
    var j := StrList(ss);
    assert forall i :: 0 <= i < |j.items| ==> j.items[i].Str?;
    assert seq(|j.items|, i requires 0 <= i < |j.items| => j.items[i].s) == ss;
  }

  // ---------------------------------------------------------------- numbers

  function Min(a: real, b: real): real { if a <= b then a else b }

  function Max(a: real, b: real): real { if a >= b then a else b }

  /** `max(0.0, min(1.0, x))`. */
  function Clamp01(x: real): (r: real)
    ensures 0.0 <= r <= 1.0
    ensures 0.0 <= x <= 1.0 ==> r == x
  {
    Max(0.0, Min(1.0, x))
  }

  /** Python's `round(x)` on an exact value: nearest integer, ties to even. */
  function RoundHalfEven(x: real): (r: int)
    ensures x - 0.5 <= r as real <= x + 0.5
  {
    var f := x.Floor;
    var d := x - f as real;
    if d < 0.5 then f
    else if d > 0.5 then f + 1
    else if f % 2 == 0 then f else f + 1
  }

  lemma RoundMonotone(x: real, y: real)
    requires x <= y
    ensures RoundHalfEven(x) <= RoundHalfEven(y)
  {
    var fx, fy := x.Floor, y.Floor;
    if fx < fy {
      assert RoundHalfEven(x) <= fx + 1 <= fy <= RoundHalfEven(y);
    }
  }

  /** A value in [0, 1] scaled by 100 and rounded lands in [0, 100]. */
  lemma RoundPercent(x: real)
    requires 0.0 <= x <= 1.0
    ensures 0 <= RoundHalfEven(x * 100.0) <= 100
  {
    RoundMonotone(0.0, x * 100.0);
    RoundMonotone(x * 100.0, 100.0);
    assert RoundHalfEven(0.0) == 0;
    assert RoundHalfEven(100.0) == 100;
  }

  function Pow2(k: nat): (r: nat)
    ensures r >= 1
  {
    if k == 0 then 1 else 2 * Pow2(k - 1)
  }

  function DigitChar(d: int): char
    requires 0 <= d < 10
  {
    ['0', '1', '2', '3', '4', '5', '6', '7', '8', '9'][d]
  }

  function NatToString(n: nat): (s: string)
    ensures |s| >= 1
    decreases n
  {
    if n < 10 then [DigitChar(n)] else NatToString(n / 10) + [DigitChar(n % 10)]
  }

  /** Python's `str(n)` for an int. */
  function IntToString(i: int): string {
    if i < 0 then "-" + NatToString(-i) else NatToString(i)
  }

  /** Python's `f"{x:.2f}"` on an exact value (ties to even). */
  function Format2(x: real): string {
    var k := RoundHalfEven(if x < 0.0 then -x * 100.0 else x * 100.0);
    var m: nat := k;
    (if x < 0.0 then "-" else "") + NatToString(m / 100) + "." + [DigitChar(m % 100 / 10), DigitChar(m % 10)]
  }

  /** Python's `str(x)`. Strings, None, bools and integral numbers print as
    * Python prints them; other numbers and containers get a fixed rendering. */
  function Display(j: Json): string {
    match j
    case Null => "None"
    case Bool(b) => if b then "True" else "False"
    case Num(n) => if n == n.Floor as real then IntToString(n.Floor) else "<float>"
    case Str(s) => s
    case Arr(_) => "<list>"
    case Obj(_) => "<dict>"
  }

  // ---------------------------------------------------------------- strings

  function LowerChar(c: char): char {
    if 'A' <= c <= 'Z' then (c as int + 32) as char else c
  }

  function UpperChar(c: char): char {
    if 'a' <= c <= 'z' then (c as int - 32) as char else c
  }

  /** `s.lower()` (ASCII letters only). */
  function Lower(s: string): (r: string)
    ensures |r| == |s|
    ensures forall i :: 0 <= i < |s| ==> r[i] == LowerChar(s[i])
  {
    seq(|s|, i requires 0 <= i < |s| => LowerChar(s[i]))
  }

  /** `s.upper()` (ASCII letters only). */
  function Upper(s: string): (r: string)
    ensures |r| == |s|
    ensures forall i :: 0 <= i < |s| ==> r[i] == UpperChar(s[i])
  {
    seq(|s|, i requires 0 <= i < |s| => UpperChar(s[i]))
  }

  /** Text without uppercase letters is its own lowercase form. */
  lemma LowerIdentity(s: string)
    requires forall i :: 0 <= i < |s| ==> !IsUpperLetter(s[i])
    ensures Lower(s) == s
  {
  }

  lemma LowerAppend(a: string, b: string)
    ensures Lower(a + b) == Lower(a) + Lower(b)
  {
  }

  /** Text containing a character that `s` lacks does not occur in `s`. */
  lemma MissingCharNotContained(s: string, t: string, c: char)
    requires c in t && c !in s
    ensures !Contains(s, t)
  {
    var k :| 0 <= k < |t| && t[k] == c;
    forall i | 0 <= i <= |s| ensures !OccursAt(s, t, i) {
      if i + |t| <= |s| {
        assert s[i..i + |t|][k] == s[i + k];
      }
    }
  }

  predicate IsDigit(c: char) { '0' <= c <= '9' }

  predicate IsLowerLetter(c: char) { 'a' <= c <= 'z' }

  predicate IsUpperLetter(c: char) { 'A' <= c <= 'Z' }

  predicate IsLetter(c: char) { IsLowerLetter(c) || IsUpperLetter(c) }

  predicate IsAlnum(c: char) { IsLetter(c) || IsDigit(c) }

  /** The regex class `\w`. */
  predicate IsWordChar(c: char) { IsAlnum(c) || c == '_' }

  /** `c.isspace()` and the regex class `\s`. */
  predicate IsSpace(c: char) {
    c == ' ' || c == '\t' || c == '\n' || c == '\r' || c == '\U{B}' || c == '\U{C}'
    || c == '\U{1C}' || c == '\U{1D}' || c == '\U{1E}' || c == '\U{1F}'
  }

  /** `t` occurs in `s` starting at index `i`. */
  predicate OccursAt(s: string, t: string, i: int) {
    0 <= i && i + |t| <= |s| && s[i..i + |t|] == t
  }

  /** `t in s` for strings. */
  predicate Contains(s: string, t: string) {
    exists i :: 0 <= i <= |s| && OccursAt(s, t, i)
  }

  predicate StartsWith(s: string, p: string) {
    |p| <= |s| && s[..|p|] == p
  }

  predicate EndsWith(s: string, p: string) {
    |p| <= |s| && s[|s| - |p|..] == p
  }

  /** Index of the first occurrence of `t` in `s` at or after `from`. */
  function FindFrom(s: string, t: string, from: nat): (r: Option<nat>)
    ensures r.Some? ==> from <= r.value && OccursAt(s, t, r.value)
    ensures r.Some? ==> forall j :: from <= j < r.value ==> !OccursAt(s, t, j)
    ensures r.None? ==> forall j :: from <= j ==> !OccursAt(s, t, j)
    decreases |s| - from
  {
    if from + |t| > |s| then None
    else if s[from..from + |t|] == t then Some(from)
    else FindFrom(s, t, from + 1)
  }

  lemma ContainsFind(s: string, t: string)
    ensures Contains(s, t) <==> FindFrom(s, t, 0).Some?
  {
    if FindFrom(s, t, 0).Some? {
      assert OccursAt(s, t, FindFrom(s, t, 0).value);
    }
  }

  /** `s.count(t)` for a non-empty `t`: non-overlapping occurrences, left to right. */
  function CountFrom(s: string, t: string, from: nat): nat
    requires |t| > 0
    decreases |s| - from
  {
    match FindFrom(s, t, from)
    case None => 0
    case Some(i) => 1 + CountFrom(s, t, i + |t|)
  }

  function Count(s: string, t: string): nat {
    if |t| == 0 then |s| + 1 else CountFrom(s, t, 0)
  }

  lemma CountPositive(s: string, t: string)
    requires |t| > 0
    ensures Count(s, t) > 0 <==> Contains(s, t)
  {
    ContainsFind(s, t);
  }

  function StripLeft(s: string): (r: string)
    ensures |r| <= |s| && r == s[|s| - |r|..]
    ensures |r| > 0 ==> !IsSpace(r[0])
    ensures forall i :: 0 <= i < |s| - |r| ==> IsSpace(s[i])
  {
    if |s| > 0 && IsSpace(s[0]) then StripLeft(s[1..]) else s
  }

  function StripRight(s: string): (r: string)
    ensures |r| <= |s| && r == s[..|r|]
    ensures |r| > 0 ==> !IsSpace(r[|r| - 1])
    ensures forall i :: |r| <= i < |s| ==> IsSpace(s[i])
  {
    if |s| > 0 && IsSpace(s[|s| - 1]) then StripRight(s[..|s| - 1]) else s
  }

  /** `s.strip()`. */
  function Strip(s: string): (r: string)
    ensures |r| > 0 ==> !IsSpace(r[0]) && !IsSpace(r[|r| - 1])
  {
    StripRight(StripLeft(s))
  }

  /** `s.strip(chars)` for an explicit character set. */
  function StripChars(s: string, cs: set<char>): (r: string)
    ensures |r| > 0 ==> r[0] !in cs && r[|r| - 1] !in cs
  {
    if |s| > 0 && s[0] in cs then StripChars(s[1..], cs)
    else if |s| > 0 && s[|s| - 1] in cs then StripChars(s[..|s| - 1], cs)
    else s
  }

  /** The first word of `s` (which starts with a non-space) and what follows it. */
  function WordEnd(s: string, i: nat): (r: nat)
    requires i <= |s|
    ensures i <= r <= |s|
    ensures forall j :: i <= j < r ==> !IsSpace(s[j])
    ensures r < |s| ==> IsSpace(s[r])
    decreases |s| - i
  {
    if i == |s| || IsSpace(s[i]) then i else WordEnd(s, i + 1)
  }

  /** `s.split()`: maximal runs of non-whitespace characters, in order. */
  function SplitWs(s: string): (r: seq<string>)
    ensures forall k :: 0 <= k < |r| ==> |r[k]| > 0
    decreases |s|
  {
    var t := StripLeft(s);
    if |t| == 0 then []
    else
      var e := WordEnd(t, 0);
      [t[..e]] + SplitWs(t[e..])
  }

  /** The end of the run of `p`-characters starting at `i`. */
  function RunEnd(s: string, i: nat, p: char -> bool): (r: nat)
    requires i <= |s|
    ensures i <= r <= |s|
    ensures forall j :: i <= j < r ==> p(s[j])
    ensures r < |s| ==> !p(s[r])
    decreases |s| - i
  {
    if i == |s| || !p(s[i]) then i else RunEnd(s, i + 1, p)
  }

  /** The maximal runs of `p`-characters of `s`, in order: what
    * `re.findall` returns for the pattern `[...]+` of that class. */
  function Runs(s: string, p: char -> bool): (r: seq<string>)
    ensures |r| <= |s|
    ensures forall k :: 0 <= k < |r| ==> |r[k]| > 0 && forall j :: 0 <= j < |r[k]| ==> p(r[k][j])
    decreases |s|
  {
    if |s| == 0 then []
    else if !p(s[0]) then Runs(s[1..], p)
    else
      var e := RunEnd(s, 0, p);
      [s[..e]] + Runs(s[e..], p)
  }

  /** `s.split(sep)` for a single-character separator. */
  function SplitOn(s: string, sep: char): (r: seq<string>)
    ensures |r| >= 1
    ensures forall k, j :: 0 <= k < |r| && 0 <= j < |r[k]| ==> r[k][j] != sep
    decreases |s|
  {
    if |s| == 0 then [""]
    else
      var rest := SplitOn(s[1..], sep);
      if s[0] == sep then [""] + rest
      else [[s[0]] + rest[0]] + rest[1..]
  }

  /** `s.replace(c, '')` for a single character. */
  function RemoveChar(s: string, c: char): (r: string)
    ensures |r| <= |s|
    ensures forall i :: 0 <= i < |r| ==> r[i] != c
  {
    if |s| == 0 then ""
    else if s[0] == c then RemoveChar(s[1..], c)
    else [s[0]] + RemoveChar(s[1..], c)
  }

  /** Python's slice `s[:n]`, where a negative `n` counts from the end. */
  function PySlice<T>(s: seq<T>, n: int): (r: seq<T>)
    ensures |r| <= |s|
    ensures n >= 0 ==> |r| == if n < |s| then n else |s|
    ensures r == s[..|r|]
  {
    if n >= 0 then (if n < |s| then s[..n] else s)
    else if |s| + n > 0 then s[..|s| + n] else []
  }

  function Join(parts: seq<string>, sep: string): string {
    if |parts| == 0 then ""
    else if |parts| == 1 then parts[0]
    else parts[0] + sep + Join(parts[1..], sep)
  }

  /** `sum(1 for x in s if p(x))`. */
  function CountWhere<T>(s: seq<T>, p: T -> bool): (r: nat)
    ensures r <= |s|
  {
    if |s| == 0 then 0 else (if p(s[0]) then 1 else 0) + CountWhere(s[1..], p)
  }

  lemma {:induction false} SubsetCard<T>(a: set<T>, b: set<T>)
    requires a <= b
    ensures |a| <= |b|
    decreases |a|
  {
    if a != {} {
      var x :| x in a;
      SubsetCard(a - {x}, b - {x});
    }
  }

  /** A sequence has at most as many distinct elements as entries, and at
    * least one when it is not empty. */
  lemma {:induction false} DistinctCount<T>(s: seq<T>)
    ensures |set x | x in s| <= |s|
    ensures |s| > 0 ==> |set x | x in s| >= 1
  {
    if |s| > 0 {
      DistinctCount(s[1..]);
      assert (set x | x in s) == {s[0]} + (set x | x in s[1..]);
    }
  }

  /** The elements of `xs` whose flag is set, in order. */
  function Select<T>(xs: seq<T>, flags: seq<bool>): (r: seq<T>)
    requires |xs| == |flags|
    ensures |r| <= |xs|
  {
    if |xs| == 0 then [] else (if flags[0] then [xs[0]] else []) + Select(xs[1..], flags[1..])
  }

  predicate Distinct<T(==)>(xs: seq<T>) {
    forall i, j :: 0 <= i < j < |xs| ==> xs[i] != xs[j]
  }

  lemma {:induction false} SelectMembers<T>(xs: seq<T>, flags: seq<bool>)
    requires |xs| == |flags| && Distinct(xs)
    ensures forall i :: 0 <= i < |xs| ==> (xs[i] in Select(xs, flags) <==> flags[i])
    ensures forall x :: x in Select(xs, flags) ==> x in xs
  {
    if |xs| > 0 {
      SelectMembers(xs[1..], flags[1..]);
      forall i | 0 <= i < |xs| ensures xs[i] in Select(xs, flags) <==> flags[i] {
        if i > 0 {
          assert xs[i] == xs[1..][i - 1];
        } else {
          assert forall x :: x in Select(xs[1..], flags[1..]) ==> x in xs[1..];
          assert xs[0] !in xs[1..];
        }
      }
    }
  }

  lemma {:induction false} SelectAll<T>(xs: seq<T>, flags: seq<bool>)
    requires |xs| == |flags| && forall i :: 0 <= i < |flags| ==> flags[i]
    ensures Select(xs, flags) == xs
  {
    if |xs| > 0 {
      SelectAll(xs[1..], flags[1..]);
    }
  }

  lemma {:induction false} SelectNone<T>(xs: seq<T>, flags: seq<bool>)
    requires |xs| == |flags| && forall i :: 0 <= i < |flags| ==> !flags[i]
    ensures Select(xs, flags) == []
  {
    if |xs| > 0 {
      SelectNone(xs[1..], flags[1..]);
    }
  }

  /** How many of `words` occur in the (already lowercased) text. */
  function Hits(lower: string, words: seq<string>): (r: nat)
    ensures r <= |words|
  {
    CountWhere(words, w => Contains(lower, w))
  }

  /** A text mentioning every word hits them all. */
  lemma {:induction false} AllHits(lower: string, words: seq<string>)
    requires forall k :: 0 <= k < |words| ==> Contains(lower, words[k])
    ensures Hits(lower, words) == |words|
  {
    if |words| > 0 {
      AllHits(lower, words[1..]);
      assert CountWhere(words[1..], w => Contains(lower, w)) == |words| - 1;
    }
  }

  /** `sum(1 for x in s if p(x))` is `len(s)` exactly when every element
    * passes, and 0 exactly when none does. */
  lemma {:induction false} CountWhereExtremes<T>(s: seq<T>, p: T -> bool)
    ensures CountWhere(s, p) == |s| <==> forall i :: 0 <= i < |s| ==> p(s[i])
    ensures CountWhere(s, p) == 0 <==> forall i :: 0 <= i < |s| ==> !p(s[i])
  {
    if |s| > 0 {
      CountWhereExtremes(s[1..], p);
      assert forall i :: 1 <= i < |s| ==> s[i] == s[1..][i - 1];
    }
  }

  function SumReals(xs: seq<real>): real {
    if |xs| == 0 then 0.0 else xs[0] + SumReals(xs[1..])
  }

  lemma SumRealsAppend(xs: seq<real>, ys: seq<real>)
    ensures SumReals(xs + ys) == SumReals(xs) + SumReals(ys)
  {
    if |xs| == 0 {
      assert xs + ys == ys;
    } else {
      assert (xs + ys)[1..] == xs[1..] + ys;
      SumRealsAppend(xs[1..], ys);
    }
  }

  /** A mean of values in `[lo, hi]` lies in `[lo, hi]`. */
  lemma MeanBounds(total: real, n: real, lo: real, hi: real)
    requires n > 0.0 && n * lo <= total <= n * hi
    ensures lo <= total / n <= hi
  {
    var a := total / n;
    assert total == n * a;
  }

  lemma SumRealsBounds(xs: seq<real>, lo: real, hi: real)
    requires forall i :: 0 <= i < |xs| ==> lo <= xs[i] <= hi
    ensures |xs| as real * lo <= SumReals(xs) <= |xs| as real * hi
  {
    if |xs| > 0 {
      var tail := xs[1..];
      assert forall i :: 0 <= i < |tail| ==> tail[i] == xs[i + 1];
      SumRealsBounds(tail, lo, hi);
      var n := |tail| as real;
      assert |xs| as real == n + 1.0;
      AddBounds(n, |xs| as real, SumReals(tail), xs[0], lo, hi);
      assert SumReals(xs) == SumReals(tail) + xs[0];
    }
  }

  /** One more value in `[lo, hi]` keeps a sum of `n` such values within bounds. */
  lemma AddBounds(n: real, m: real, s: real, x: real, lo: real, hi: real)
    requires n * lo <= s <= n * hi && lo <= x <= hi && m == n + 1.0
    ensures m * lo <= s + x <= m * hi
  {
  }

  /** The sum of `f` over the items, folded from the left. */
  function SumBy<T>(ps: seq<T>, f: T -> real): real {
    if |ps| == 0 then 0.0 else SumBy(ps[..|ps| - 1], f) + f(ps[|ps| - 1])
  }

  /** A sum of `n` values in [lo, hi] lies in [n·lo, n·hi]. */
  lemma {:induction false} SumByBounds<T>(ps: seq<T>, f: T -> real, lo: real, hi: real)
    requires forall p :: p in ps ==> lo <= f(p) <= hi
    ensures |ps| as real * lo <= SumBy(ps, f) <= |ps| as real * hi
  {
    if |ps| > 0 {
      var init, last := ps[..|ps| - 1], ps[|ps| - 1];
      assert forall p :: p in init ==> p in ps;
      SumByBounds(init, f, lo, hi);
      assert last in ps;
      assert |ps| as real == |init| as real + 1.0;
      AddBounds(|init| as real, |ps| as real, SumBy(init, f), f(last), lo, hi);
      assert SumBy(ps, f) == SumBy(init, f) + f(last);
    }
  }
}
