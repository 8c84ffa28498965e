/**
 * String and number helpers that mirror the JavaScript built-ins the servers
 * rely on: truthiness and `||` chains, `toLowerCase`, `trim`, `includes`,
 * `startsWith`, `split`, `join`, `substring(0, n)`, `padStart`, `parseInt`,
 * number-to-text conversion and `[...new Set(xs)]`.
 *
 * Strings are sequences of Unicode scalar values; JavaScript counts UTF-16
 * code units instead, which only differs for characters outside the Basic
 * Multilingual Plane.
 */
module Text {

  datatype Option<T> = None | Some(value: T)

  // ---------------------------------------------------------------------------
  // Truthiness and `||`
  // ---------------------------------------------------------------------------

  /** JavaScript truthiness of a value that is either absent (undefined) or a string. */
  predicate Truthy(o: Option<string>) {
    o.Some? && o.value != ""
  }

  /** `xs[0] || xs[1] || ... || xs[n-1]`: the first truthy operand, else the last operand. */
  function OrChain(xs: seq<Option<string>>): Option<string>
    requires |xs| > 0
  {
    if |xs| == 1 || Truthy(xs[0]) then xs[0] else OrChain(xs[1..])
  }

  /** The chain yields the first truthy operand. */
  lemma {:induction false} OrChainFirstTruthy(xs: seq<Option<string>>, k: nat)
    requires k < |xs| && Truthy(xs[k])
    requires forall i :: 0 <= i < k ==> !Truthy(xs[i])
    ensures OrChain(xs) == xs[k]
  {
    if k > 0 {
      assert !Truthy(xs[0]);
      OrChainFirstTruthy(xs[1..], k - 1);
    }
  }

  /** When no operand is truthy, the chain yields the last operand, which is falsy. */
  lemma {:induction false} OrChainAllFalsy(xs: seq<Option<string>>)
    requires |xs| > 0
    requires forall i :: 0 <= i < |xs| ==> !Truthy(xs[i])
    ensures OrChain(xs) == xs[|xs| - 1] && !Truthy(OrChain(xs))
  {
    if |xs| > 1 {
      assert !Truthy(xs[0]);
      OrChainAllFalsy(xs[1..]);
    }
  }

  /** `s || fallback` for an optional string, as a plain string. */
  function OrElse(o: Option<string>, fallback: string): string {
    if Truthy(o) then o.value else fallback
  }

  // ---------------------------------------------------------------------------
  // Characters
  // ---------------------------------------------------------------------------

  /** `toLowerCase` on one character (ASCII letters only). */
  function LowerChar(c: char): char {
    if 'A' <= c <= 'Z' then (c as int + 32) as char else c
  }

  /** `toLowerCase`, restricted to the ASCII letters. */
  function Lower(s: string): (r: string)
    ensures |r| == |s|
    ensures forall i :: 0 <= i < |s| ==> r[i] == LowerChar(s[i])
  {
    seq(|s|, i requires 0 <= i < |s| => LowerChar(s[i]))
  }

  /** The characters JavaScript's `trim` and the RegExp class `\s` treat as white space. */
  predicate IsSpace(c: char) {
    var n := c as int;
    n == 0x09 || n == 0x0A || n == 0x0B || n == 0x0C || n == 0x0D || n == 0x20
    || n == 0xA0 || n == 0x1680 || (0x2000 <= n <= 0x200A) || n == 0x2028
    || n == 0x2029 || n == 0x202F || n == 0x205F || n == 0x3000 || n == 0xFEFF
  }

  predicate AllSpace(s: string) {
    forall i :: 0 <= i < |s| ==> IsSpace(s[i])
  }

  predicate IsDigit(c: char) {
    '0' <= c <= '9'
  }

  function DigitValue(c: char): nat
    requires IsDigit(c)
  {
    c as int - '0' as int
  }

  function DigitChar(d: nat): (c: char)
    requires d < 10
    ensures IsDigit(c) && DigitValue(c) == d
  {
    (d + '0' as int) as char
  }

  // ---------------------------------------------------------------------------
  // trim
  // ---------------------------------------------------------------------------

  /** `trimStart()`: drops the leading white space. */
  function TrimStart(s: string): string
    decreases |s|
  {
    if |s| > 0 && IsSpace(s[0]) then TrimStart(s[1..]) else s
  }

  /** `trimEnd()`: drops the trailing white space. */
  function TrimEnd(s: string): string
    decreases |s|
  {
    if |s| > 0 && IsSpace(s[|s| - 1]) then TrimEnd(s[..|s| - 1]) else s
  }

  /** `trim()`. */
  function Trim(s: string): string {
    TrimEnd(TrimStart(s))
  }

  /** `trimStart` removes exactly the maximal white-space prefix. */
  lemma {:induction false} TrimStartSpec(s: string)
    ensures |TrimStart(s)| <= |s|
    ensures TrimStart(s) == s[|s| - |TrimStart(s)|..]
    ensures AllSpace(s[..|s| - |TrimStart(s)|])
    ensures |TrimStart(s)| > 0 ==> !IsSpace(TrimStart(s)[0])
    decreases |s|
  {
    if |s| > 0 && IsSpace(s[0]) {
      var t := s[1..];
      TrimStartSpec(t);
      var k := |t| - |TrimStart(t)|;
      assert s[..k + 1] == [s[0]] + t[..k];
    }
  }

  /** `trimEnd` removes exactly the maximal white-space suffix. */
  lemma {:induction false} TrimEndSpec(s: string)
    ensures |TrimEnd(s)| <= |s|
    ensures TrimEnd(s) == s[..|TrimEnd(s)|]
    ensures AllSpace(s[|TrimEnd(s)|..])
    ensures |TrimEnd(s)| > 0 ==> !IsSpace(TrimEnd(s)[|TrimEnd(s)| - 1])
    decreases |s|
  {
    if |s| > 0 && IsSpace(s[|s| - 1]) {
      var t := s[..|s| - 1];
      TrimEndSpec(t);
      var k := |TrimEnd(t)|;
      assert s[k..] == t[k..] + [s[|s| - 1]];
    }
  }

  lemma {:induction false} TrimStartAllSpace(s: string)
    requires AllSpace(s)
    ensures TrimStart(s) == ""
    decreases |s|
  {
    if |s| > 0 {
      TrimStartAllSpace(s[1..]);
    }
  }

  /** `s.trim().length > 0` holds exactly when `s` has a character that is not white space. */
  lemma TrimEmptyIff(s: string)
    ensures Trim(s) == "" <==> AllSpace(s)
  {
    var t := TrimStart(s);
    TrimStartSpec(s);
    TrimEndSpec(t);
    var k := |s| - |t|;
    if Trim(s) == "" {
      assert t[0..] == t;
      assert |t| == 0;
      forall i | 0 <= i < |s| ensures IsSpace(s[i]) {
        assert s[..k][i] == s[i];
      }
    }
    if AllSpace(s) {
      TrimStartAllSpace(s);
    }
  }

  lemma DigitNotSpace(c: char)
    requires IsDigit(c)
    ensures !IsSpace(c)
  {
  }

  /** `trimStart` leaves a text that begins with a digit alone. */
  lemma TrimStartAtDigit(s: string)
    requires |s| > 0 && IsDigit(s[0])
    ensures TrimStart(s) == s
  {
    DigitNotSpace(s[0]);
  }

  /** Trimming keeps a contiguous run of `s`. */
  lemma TrimIsSlice(s: string)
    ensures exists i, j :: 0 <= i <= j <= |s| && Trim(s) == s[i..j]
  {
    var t := TrimStart(s);
    TrimStartSpec(s);
    var k := |s| - |t|;
    var u := TrimEnd(t);
    TrimEndSpec(t);
    assert u == t[..|u|] == s[k..k + |u|];
  }

  /** `toLowerCase` maps white space to white space and nothing else to it. */
  lemma LowerCharSpace(c: char)
    ensures IsSpace(LowerChar(c)) <==> IsSpace(c)
  {
  }

  lemma LowerConcat(a: string, b: string)
    ensures Lower(a + b) == Lower(a) + Lower(b)
  {
  }

  /** Lower-casing leaves white space alone. */
  lemma LowerAllSpace(s: string)
    requires AllSpace(s)
    ensures Lower(s) == s
  {
  }

  lemma {:induction false} TrimStartSpacePrefix(ws: string, s: string)
    requires AllSpace(ws)
    ensures TrimStart(ws + s) == TrimStart(s)
    decreases |ws|
  {
    if |ws| > 0 {
      assert (ws + s)[0] == ws[0] && IsSpace(ws[0]);
      assert (ws + s)[1..] == ws[1..] + s;
      TrimStartSpacePrefix(ws[1..], s);
    } else {
      assert ws + s == s;
    }
  }

  lemma {:induction false} TrimEndSpaceSuffix(s: string, ws: string)
    requires AllSpace(ws)
    ensures TrimEnd(s + ws) == TrimEnd(s)
    decreases |ws|
  {
    if |ws| > 0 {
      var w := ws[..|ws| - 1];
      assert (s + ws)[|s + ws| - 1] == ws[|ws| - 1] && IsSpace(ws[|ws| - 1]);
      assert (s + ws)[..|s + ws| - 1] == s + w;
      TrimEndSpaceSuffix(s, w);
    } else {
      assert s + ws == s;
    }
  }

  /** `trimStart` of a concatenation stops inside the first part unless that part is all white space. */
  lemma {:induction false} TrimStartConcat(s: string, t: string)
    ensures TrimStart(s + t) == if AllSpace(s) then TrimStart(t) else TrimStart(s) + t
    decreases |s|
  {
    if AllSpace(s) {
      TrimStartSpacePrefix(s, t);
    } else if IsSpace(s[0]) {
      assert (s + t)[1..] == s[1..] + t;
      TrimStartConcat(s[1..], t);
    }
  }

  /** `trim()` ignores white space added around its input. */
  lemma TrimIgnoresPadding(ws1: string, s: string, ws2: string)
    requires AllSpace(ws1) && AllSpace(ws2)
    ensures Trim(ws1 + s + ws2) == Trim(s)
  {
    assert ws1 + s + ws2 == ws1 + (s + ws2);
    TrimStartSpacePrefix(ws1, s + ws2);
    TrimStartConcat(s, ws2);
    if AllSpace(s) {
      TrimStartAllSpace(ws2);
      TrimStartAllSpace(s);
    } else {
      TrimEndSpaceSuffix(TrimStart(s), ws2);
    }
  }

  lemma {:induction false} TrimStartLower(s: string)
    ensures TrimStart(Lower(s)) == Lower(TrimStart(s))
    decreases |s|
  {
    if |s| > 0 {
      LowerCharSpace(s[0]);
      if IsSpace(s[0]) {
        assert Lower(s)[1..] == Lower(s[1..]);
        TrimStartLower(s[1..]);
      }
    }
  }

  lemma {:induction false} TrimEndLower(s: string)
    ensures TrimEnd(Lower(s)) == Lower(TrimEnd(s))
    decreases |s|
  {
    if |s| > 0 {
      LowerCharSpace(s[|s| - 1]);
      if IsSpace(s[|s| - 1]) {
        assert Lower(s)[..|s| - 1] == Lower(s[..|s| - 1]);
        TrimEndLower(s[..|s| - 1]);
      }
    }
  }

  /** Trimming and lower-casing commute. */
  lemma TrimLower(s: string)
    ensures Trim(Lower(s)) == Lower(Trim(s))
  {
    TrimStartLower(s);
    TrimEndLower(TrimStart(s));
  }

  // ---------------------------------------------------------------------------
  // startsWith, includes, occurrence counting
  // ---------------------------------------------------------------------------

  /** `s.startsWith(p)`. */
  predicate StartsWith(s: string, p: string) {
    |p| <= |s| && s[..|p|] == p
  }

  /** `s.endsWith(p)`. */
  predicate EndsWith(s: string, p: string) {
    |p| <= |s| && s[|s| - |p|..] == p
  }

  /** A concatenation starts with its left part and ends with its right part. */
  lemma AffixesOfConcat(a: string, b: string)
    ensures StartsWith(a + b, a) && EndsWith(a + b, b)
  {
    assert (a + b)[..|a|] == a;
    assert (a + b)[|a + b| - |b|..] == b;
  }

  /** A three-part concatenation starts with its first part and ends with its last. */
  lemma AffixesOfConcat3(a: string, b: string, c: string)
    ensures StartsWith(a + b + c, a) && EndsWith(a + b + c, c)
    ensures |a| > 0 ==> (a + b + c)[0] == a[0]
  {
    AffixesOfConcat(a, b + c);
    AffixesOfConcat(a + b, c);
    assert a + b + c == a + (b + c);
  }

  /** Putting the same text in front of both keeps a prefix a prefix. */
  lemma StartsWithPrepend(a: string, s: string, p: string)
    requires StartsWith(s, p)
    ensures StartsWith(a + s, a + p)
  {
    assert (a + s)[..|a + p|] == a + s[..|p|];
  }

  /** `sub` occurs in `s` at position `i`. */
  predicate OccursAt(s: string, sub: string, i: int) {
    0 <= i && i + |sub| <= |s| && s[i..i + |sub|] == sub
  }

  /** `s.includes(sub)`, scanning left to right. */
  predicate Contains(s: string, sub: string)
    decreases |s|
  {
    StartsWith(s, sub) || (|s| > 0 && Contains(s[1..], sub))
  }

  /** `includes` holds exactly when the needle occurs at some position. */
  lemma {:induction false} ContainsIff(s: string, sub: string)
    ensures Contains(s, sub) <==> exists i :: OccursAt(s, sub, i)
    decreases |s|
  {
    if StartsWith(s, sub) {
      assert OccursAt(s, sub, 0);
    } else if |s| == 0 {
      assert |sub| > 0;
    } else {
      ContainsIff(s[1..], sub);
      if exists i :: OccursAt(s, sub, i) {
        var i :| OccursAt(s, sub, i);
        if i > 0 {
          assert s[1..][i - 1..i - 1 + |sub|] == s[i..i + |sub|];
          assert OccursAt(s[1..], sub, i - 1);
        }
      }
      if exists i :: OccursAt(s[1..], sub, i) {
        var i :| OccursAt(s[1..], sub, i);
        assert s[1..][i..i + |sub|] == s[i + 1..i + 1 + |sub|];
        assert OccursAt(s, sub, i + 1);
      }
    }
  }

  /** An occurrence of `outer` carries an occurrence of every needle it contains. */
  lemma ContainsTransitive(s: string, outer: string, inner: string)
    requires Contains(s, outer) && Contains(outer, inner)
    ensures Contains(s, inner)
  {
    ContainsIff(s, outer);
    ContainsIff(outer, inner);
    var i :| OccursAt(s, outer, i);
    var j :| OccursAt(outer, inner, j);
    assert s[i..i + |outer|] == outer;
    forall t | 0 <= t < |inner| ensures s[i + j + t] == inner[t] {
      assert s[i + j + t] == s[i..i + |outer|][j + t];
      assert inner[t] == outer[j..j + |inner|][t];
    }
    assert s[i + j..i + j + |inner|] == inner;
    assert OccursAt(s, inner, i + j);
    ContainsIff(s, inner);
  }

  /** Number of non-overlapping occurrences of `kw` in `s[i..]`, leftmost first (`s.match(/kw/g).length`). */
  function CountFrom(s: string, kw: string, i: nat): nat
    requires |kw| > 0
    decreases |s| - i
  {
    if i + |kw| > |s| then 0
    else if OccursAt(s, kw, i) then 1 + CountFrom(s, kw, i + |kw|)
    else CountFrom(s, kw, i + 1)
  }

  function CountOccurrences(s: string, kw: string): nat
    requires |kw| > 0
  {
    CountFrom(s, kw, 0)
  }

  /** `kw` occurs somewhere in `s` at or after position `i`. */
  ghost predicate OccursFrom(s: string, kw: string, i: nat) {
    exists k :: i <= k && OccursAt(s, kw, k)
  }

  /** The count is positive exactly when the keyword occurs. */
  lemma {:induction false} CountFromPositive(s: string, kw: string, i: nat)
    requires |kw| > 0
    ensures CountFrom(s, kw, i) > 0 <==> OccursFrom(s, kw, i)
    decreases |s| - i
  {
    if i + |kw| > |s| {
      forall k | i <= k ensures !OccursAt(s, kw, k) { }
    } else if OccursAt(s, kw, i) {
      assert OccursFrom(s, kw, i);
    } else {
      CountFromPositive(s, kw, i + 1);
      if OccursFrom(s, kw, i) {
        var k :| i <= k && OccursAt(s, kw, k);
        assert i + 1 <= k;
      }
      if OccursFrom(s, kw, i + 1) {
        var k :| i + 1 <= k && OccursAt(s, kw, k);
        assert i <= k;
      }
    }
  }

  /** The counted matches do not overlap, so they fit in the text. */
  lemma {:induction false} CountFromBound(s: string, kw: string, i: nat)
    requires |kw| > 0 && i <= |s|
    ensures CountFrom(s, kw, i) * |kw| <= |s| - i
    decreases |s| - i
  {
    if i + |kw| > |s| {
    } else if OccursAt(s, kw, i) {
      CountFromBound(s, kw, i + |kw|);
    } else {
      CountFromBound(s, kw, i + 1);
    }
  }

  lemma CountPositiveIff(s: string, kw: string)
    requires |kw| > 0
    ensures CountOccurrences(s, kw) > 0 <==> Contains(s, kw)
    ensures CountOccurrences(s, kw) * |kw| <= |s|
  {
    CountFromPositive(s, kw, 0);
    CountFromBound(s, kw, 0);
    ContainsIff(s, kw);
  }

  /** Index of the first occurrence of `sep` in `s` at or after `i`. */
  function IndexOfFrom(s: string, sep: string, i: nat): (r: Option<nat>)
    requires |sep| > 0
    ensures r.Some? ==> i <= r.value && OccursAt(s, sep, r.value)
    decreases |s| - i
  {
    if i + |sep| > |s| then None
    else if OccursAt(s, sep, i) then Some(i)
    else IndexOfFrom(s, sep, i + 1)
  }

  /** `s.indexOf(sep, i)` finds the first occurrence at or after `i`, or reports that there is none. */
  lemma {:induction false} IndexOfFromSpec(s: string, sep: string, i: nat)
    requires |sep| > 0
    ensures var r := IndexOfFrom(s, sep, i);
      && (r.Some? ==> forall k :: i <= k < r.value ==> !OccursAt(s, sep, k))
      && (r.None? ==> forall k :: i <= k ==> !OccursAt(s, sep, k))
    decreases |s| - i
  {
    if i + |sep| <= |s| && !OccursAt(s, sep, i) {
      IndexOfFromSpec(s, sep, i + 1);
    }
  }

  // ---------------------------------------------------------------------------
  // split / join
  // ---------------------------------------------------------------------------

  /** `parts.join(sep)`. */
  function Join(parts: seq<string>, sep: string): string
  {
    if |parts| == 0 then ""
    else if |parts| == 1 then parts[0]
    else parts[0] + sep + Join(parts[1..], sep)
  }

  /** Concatenation of a sequence of strings (`join('')`, or repeated `+=`). */
  function Concat(parts: seq<string>): string
  {
    if |parts| == 0 then "" else parts[0] + Concat(parts[1..])
  }

  lemma {:induction false} ConcatAppend(a: seq<string>, b: seq<string>)
    ensures Concat(a + b) == Concat(a) + Concat(b)
  {
    if |a| > 0 {
      ConcatAppend(a[1..], b);
      assert (a + b)[1..] == a[1..] + b;
    } else {
      assert a + b == b;
    }
  }

  /** `s.split(sep)` for a non-empty separator string: cut at every leftmost non-overlapping occurrence. */
  function SplitOn(s: string, sep: string): (r: seq<string>)
    requires |sep| > 0
    ensures |r| >= 1
    decreases |s|
  {
    var k := IndexOfFrom(s, sep, 0);
    if k.None? then [s] else [s[..k.value]] + SplitOn(s[k.value + |sep|..], sep)
  }

  /** Splitting loses nothing: joining the pieces with the separator gives back the text. */
  lemma {:induction false} SplitJoin(s: string, sep: string)
    requires |sep| > 0
    ensures Join(SplitOn(s, sep), sep) == s
    decreases |s|
  {
    var k := IndexOfFrom(s, sep, 0);
    if k.Some? {
      var i := k.value;
      SplitJoin(s[i + |sep|..], sep);
      SplitStep(s, sep, i);
      CutAround(s, i, i + |sep|);
    }
  }

  /** Unfolds one cut of `SplitOn` at the first occurrence `i` of the separator. */
  lemma SplitStep(s: string, sep: string, i: nat)
    requires |sep| > 0 && IndexOfFrom(s, sep, 0) == Some(i)
    ensures Join(SplitOn(s, sep), sep) == s[..i] + sep + Join(SplitOn(s[i + |sep|..], sep), sep)
  {
    var tail := SplitOn(s[i + |sep|..], sep);
    assert SplitOn(s, sep) == [s[..i]] + tail;
    JoinCons(s[..i], tail, sep);
  }

  lemma CutAround(s: string, i: nat, j: nat)
    requires i <= j <= |s|
    ensures s == s[..i] + s[i..j] + s[j..]
  {
  }

  lemma JoinCons(a: string, tail: seq<string>, sep: string)
    requires |tail| >= 1
    ensures Join([a] + tail, sep) == a + sep + Join(tail, sep)
  {
    assert ([a] + tail)[1..] == tail;
  }

  /** No piece of a split contains the separator. */
  lemma {:induction false} SplitPiecesFree(s: string, sep: string)
    requires |sep| > 0
    ensures forall p :: p in SplitOn(s, sep) ==> !Contains(p, sep)
    decreases |s|
  {
    var k := IndexOfFrom(s, sep, 0);
    IndexOfFromSpec(s, sep, 0);
    if k.None? {
      ContainsIff(s, sep);
    } else {
      var head := s[..k.value];
      ContainsIff(head, sep);
      if exists i :: OccursAt(head, sep, i) {
        var i :| OccursAt(head, sep, i);
        assert head[i..i + |sep|] == s[i..i + |sep|];
        assert OccursAt(s, sep, i);
        assert false;
      }
      SplitPiecesFree(s[k.value + |sep|..], sep);
    }
  }

  /** The first piece of `s.split(sep)` is the prefix of `s` before the first separator. */
  lemma SplitFirstIsPrefix(s: string, sep: string)
    requires |sep| > 0
    ensures StartsWith(s, SplitOn(s, sep)[0])
    ensures !Contains(SplitOn(s, sep)[0], sep)
  {
    SplitPiecesFree(s, sep);
  }

  // ---------------------------------------------------------------------------
  // substring, padStart, de-duplication
  // ---------------------------------------------------------------------------

  /** `s.substring(0, n)`: the first `n` characters, or all of `s` when it is shorter. */
  function Take(s: string, n: nat): (r: string)
    ensures |r| <= n && StartsWith(s, r)
    ensures |s| <= n ==> r == s
    ensures |s| > n ==> |r| == n
  {
    if |s| <= n then s else s[..n]
  }

  /** `s.length > n ? s.substring(0, n) + '...' : s`. */
  function Ellipsize(s: string, n: nat): (r: string)
    ensures |s| <= n ==> r == s
    ensures |s| > n ==> |r| == n + 3 && StartsWith(r, s[..n]) && EndsWith(r, "...")
    ensures |r| <= n + 3
  {
    if |s| > n then s[..n] + "..." else s
  }

  function Repeat(c: char, n: nat): (r: string)
    ensures |r| == n && forall i :: 0 <= i < n ==> r[i] == c
  {
    seq(n, _ => c)
  }

  /** `s.padStart(n, c)`. */
  function PadStart(s: string, n: nat, c: char): (r: string)
    ensures |r| == if |s| >= n then |s| else n
    ensures EndsWith(r, s)
    ensures |s| >= n ==> r == s
    ensures forall i :: 0 <= i < |r| - |s| ==> r[i] == c
  {
    if |s| >= n then s else Repeat(c, n - |s|) + s
  }

  predicate NoDuplicates<T(==)>(s: seq<T>) {
    forall i, j :: 0 <= i < j < |s| ==> s[i] != s[j]
  }

  /** `[...new Set(xs)]`: first occurrences, in order. */
  function Dedup<T(==,!new)>(xs: seq<T>): (r: seq<T>)
    ensures NoDuplicates(r)
    ensures forall x :: x in r <==> x in xs
    decreases |xs|
  {
    if |xs| == 0 then []
    else
      var r := Dedup(xs[..|xs| - 1]);
      if xs[|xs| - 1] in r then r else r + [xs[|xs| - 1]]
  }

  // ---------------------------------------------------------------------------
  // Numbers
  // ---------------------------------------------------------------------------

  /** Decimal rendering of a natural number (`String(n)`, or `${n}` in a template). */
  function NatToString(n: nat): (r: string)
    ensures |r| > 0 && forall i :: 0 <= i < |r| ==> IsDigit(r[i])
    decreases n
  {
    if n < 10 then [DigitChar(n)] else NatToString(n / 10) + [DigitChar(n % 10)]
  }

  /** Decimal rendering of an integer. */
  function IntToString(i: int): string {
    if i < 0 then "-" + NatToString(-i) else NatToString(i)
  }

  /** The value of a string of decimal digits, most significant first. */
  function DigitsValue(ds: string): nat
    requires forall i :: 0 <= i < |ds| ==> IsDigit(ds[i])
    decreases |ds|
  {
    if |ds| == 0 then 0 else DigitsValue(ds[..|ds| - 1]) * 10 + DigitValue(ds[|ds| - 1])
  }

  /** The longest prefix of `s` made of decimal digits. */
  function LeadingDigits(s: string): (r: string)
    ensures StartsWith(s, r)
    ensures forall i :: 0 <= i < |r| ==> IsDigit(r[i])
    ensures |r| < |s| ==> !IsDigit(s[|r|])
    decreases |s|
  {
    if |s| > 0 && IsDigit(s[0]) then [s[0]] + LeadingDigits(s[1..]) else ""
  }

  /**
   * `parseInt(s)` with the default radix on a decimal string: skips leading
   * white space, reads an optional sign and the longest run of digits after it;
   * `None` stands for `NaN` (no digit at all).
   */
  function ParseInt(s: string): Option<int> {
    var t := TrimStart(s);
    var negative := |t| > 0 && t[0] == '-';
    var u := if |t| > 0 && (t[0] == '-' || t[0] == '+') then t[1..] else t;
    var ds := LeadingDigits(u);
    if ds == "" then None
    else
      var v: int := DigitsValue(ds);
      Some(if negative then -v else v)
  }

  /** `parseInt(x) > bound`, which is false for `NaN`. */
  predicate ParsedAbove(s: string, bound: int) {
    var p := ParseInt(s);
    p.Some? && p.value > bound
  }

  /** `parseInt(x) || 0`. */
  function ParseIntOrZero(s: string): int {
    var p := ParseInt(s);
    if p.Some? then p.value else 0
  }

  lemma {:induction false} DigitsValueOfNat(n: nat)
    ensures DigitsValue(NatToString(n)) == n
    decreases n
  {
    if n >= 10 {
      DigitsValueOfNat(n / 10);
      var r := NatToString(n);
      assert r[..|r| - 1] == NatToString(n / 10);
    }
  }

  lemma {:induction false} LeadingDigitsOfDigits(s: string)
    requires forall i :: 0 <= i < |s| ==> IsDigit(s[i])
    ensures LeadingDigits(s) == s
    decreases |s|
  {
    if |s| > 0 {
      LeadingDigitsOfDigits(s[1..]);
      assert [s[0]] + s[1..] == s;
    }
  }

  /** Reading back a rendered number gives the number: `parseInt(String(n)) === n`. */
  lemma ParseIntOfNatToString(n: nat)
    ensures ParseInt(NatToString(n)) == Some(n)
  {
    var s := NatToString(n);
    TrimStartAtDigit(s);
    LeadingDigitsOfDigits(s);
    DigitsValueOfNat(n);
  }

  /** Distinct numbers render as distinct texts. */
  lemma NatToStringInjective(m: nat, n: nat)
    requires NatToString(m) == NatToString(n)
    ensures m == n
  {
    ParseIntOfNatToString(m);
    ParseIntOfNatToString(n);
  }
}
