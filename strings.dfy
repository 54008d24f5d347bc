/** The string primitives the extractors are built from: Python's notion of whitespace,
    ASCII case folding, substring search, `strip`, `lstrip`, `replace`, `split` and `join`. */
module Strings {
  import opened Values

  /** Python's whitespace test (`str.isspace`), which is also what `\s` matches in a
      regular expression over `str`. */
  predicate IsSpace(c: char)
  {
    || ('\t' <= c <= '\r')
    || ('\U{1C}' <= c <= '\U{1F}')
    || c == ' '
    || c == '\U{85}'
    || c == '\U{A0}'
    || c == '\U{1680}'
    || ('\U{2000}' <= c <= '\U{200A}')
    || c == '\U{2028}'
    || c == '\U{2029}'
    || c == '\U{202F}'
    || c == '\U{205F}'
    || c == '\U{3000}'
  }

  predicate AllSpace(s: string)
  {
    forall i :: 0 <= i < |s| ==> IsSpace(s[i])
  }

  /** True when a string has no whitespace at either end (the result of `strip`). */
  predicate NoOuterSpace(s: string)
  {
    |s| > 0 ==> !IsSpace(s[0]) && !IsSpace(s[|s| - 1])
  }

  /** ASCII lower-casing of one character. */
  function Lower(c: char): (r: char)
    ensures 'A' <= c <= 'Z' ==> r as int == c as int + 32
    ensures !('A' <= c <= 'Z') ==> r == c
  {
    if 'A' <= c <= 'Z' then (c as int + 32) as char else c
  }

  /** `s.lower()` on ASCII letters; other characters are left as they are. */
  function LowerStr(s: string): (r: string)
    ensures |r| == |s|
    ensures forall i :: 0 <= i < |s| ==> r[i] == Lower(s[i])
  {
    seq(|s|, i requires 0 <= i < |s| => Lower(s[i]))
  }

  /** `p` matches the start of `s` ignoring ASCII case. */
  predicate StartsWithCaseless(s: string, p: string)
  {
    |p| <= |s| && forall i :: 0 <= i < |p| ==> Lower(s[i]) == Lower(p[i])
  }

  predicate StartsWith(s: string, p: string)
  {
    |p| <= |s| && s[..|p|] == p
  }

  predicate EndsWith(s: string, p: string)
  {
    |p| <= |s| && s[|s| - |p|..] == p
  }

  /** `p` occurs in `s` at offset `k`. */
  predicate At(s: string, p: string, k: nat)
  {
    k + |p| <= |s| && forall j :: 0 <= j < |p| ==> s[k + j] == p[j]
  }

  /** `p` occurs in `s` at offset `k`, ignoring ASCII case. */
  predicate AtCaseless(s: string, p: string, k: nat)
  {
    k + |p| <= |s| && forall j :: 0 <= j < |p| ==> Lower(s[k + j]) == Lower(p[j])
  }

  /** The first offset at or after `i` where `p` occurs in `s` (`s.find(p, i)`), or None. */
  function IndexFrom(s: string, p: string, i: nat): (r: Option<nat>)
    requires i <= |s|
    ensures r.Some? ==> i <= r.value && At(s, p, r.value)
    ensures r.Some? ==> forall k :: i <= k < r.value ==> !At(s, p, k)
    ensures r.None? ==> forall k :: i <= k <= |s| ==> !At(s, p, k)
    decreases |s| - i
  {
    if At(s, p, i) then Some(i)
    else if i == |s| then None
    else IndexFrom(s, p, i + 1)
  }

  /** The first offset at or after `i` where `p` occurs in `s` ignoring ASCII case, or None. */
  function IndexFromCaseless(s: string, p: string, i: nat): (r: Option<nat>)
    requires i <= |s|
    ensures r.Some? ==> i <= r.value && AtCaseless(s, p, r.value)
    ensures r.Some? ==> forall k :: i <= k < r.value ==> !AtCaseless(s, p, k)
    ensures r.None? ==> forall k :: i <= k <= |s| ==> !AtCaseless(s, p, k)
    decreases |s| - i
  {
    if AtCaseless(s, p, i) then Some(i)
    else if i == |s| then None
    else IndexFromCaseless(s, p, i + 1)
  }

  /** `IndexFrom` returns the offset where `p` occurs when it occurs nowhere before. */
  lemma {:induction false} IndexFromIs(s: string, p: string, i: nat, q: nat)
    requires i <= q && At(s, p, q)
    requires forall k :: i <= k < q ==> !At(s, p, k)
    ensures IndexFrom(s, p, i).Some? && IndexFrom(s, p, i).value == q
    decreases q - i
  {
    if i < q {
      IndexFromIs(s, p, i + 1, q);
    }
  }

  lemma {:induction false} IndexFromCaselessIs(s: string, p: string, i: nat, q: nat)
    requires i <= q && AtCaseless(s, p, q)
    requires forall k :: i <= k < q ==> !AtCaseless(s, p, k)
    ensures IndexFromCaseless(s, p, i).Some? && IndexFromCaseless(s, p, i).value == q
    decreases q - i
  {
    if i < q {
      IndexFromCaselessIs(s, p, i + 1, q);
    }
  }

  /** An exact occurrence is also one ignoring case. */
  lemma AtIsCaseless(s: string, p: string, k: nat)
    requires At(s, p, k)
    ensures AtCaseless(s, p, k)
  {
  }

  /** Offsets in `x` are the same offsets in `x + y`, as long as the occurrence fits in `x`. */
  lemma AtExtend(x: string, y: string, p: string, k: nat)
    requires k + |p| <= |x|
    ensures At(x + y, p, k) <==> At(x, p, k)
    ensures AtCaseless(x + y, p, k) <==> AtCaseless(x, p, k)
  {
  }

  /** A one-character occurrence is that character at that offset. */
  lemma AtChar(s: string, c: char, k: nat)
    ensures At(s, [c], k) <==> k < |s| && s[k] == c
  {
    if At(s, [c], k) {
      assert s[k + 0] == [c][0];
    }
  }

  /** Where the run of whitespace that starts at offset `i` ends. */
  function SpacesFrom(s: string, i: nat): (r: nat)
    requires i <= |s|
    ensures i <= r <= |s|
    ensures forall k :: i <= k < r ==> IsSpace(s[k])
    ensures r < |s| ==> !IsSpace(s[r])
    decreases |s| - i
  {
    if i < |s| && IsSpace(s[i]) then SpacesFrom(s, i + 1) else i
  }

  /** The end of a whitespace run is determined by where the run stops. */
  lemma {:induction false} SpacesFromIs(s: string, i: nat, r: nat)
    requires i <= r <= |s|
    requires forall k :: i <= k < r ==> IsSpace(s[k])
    requires r < |s| ==> !IsSpace(s[r])
    ensures SpacesFrom(s, i) == r
    decreases r - i
  {
    if i < r {
      SpacesFromIs(s, i + 1, r);
    }
  }

  /** The first offset at or after `i` whose character belongs to `cs`, or None. */
  function CharFrom(s: string, cs: set<char>, i: nat): (r: Option<nat>)
    requires i <= |s|
    ensures r.Some? ==> i <= r.value < |s| && s[r.value] in cs
    ensures r.Some? ==> forall k :: i <= k < r.value ==> s[k] !in cs
    ensures r.None? ==> forall k :: i <= k < |s| ==> s[k] !in cs
    decreases |s| - i
  {
    if i == |s| then None
    else if s[i] in cs then Some(i)
    else CharFrom(s, cs, i + 1)
  }

  /** `s.find(p)`: the first offset where `p` occurs in `s`, or None. */
  function IndexOf(s: string, p: string): (r: Option<nat>)
    ensures r.Some? ==> At(s, p, r.value) && forall k :: 0 <= k < r.value ==> !At(s, p, k)
    ensures r.None? ==> forall k :: 0 <= k <= |s| ==> !At(s, p, k)
  {
    IndexFrom(s, p, 0)
  }

  /** `p in s` for strings. */
  predicate Contains(s: string, p: string)
  {
    exists k :: 0 <= k <= |s| && At(s, p, k)
  }

  /** The offset of the last occurrence of character `c` in `s` (`s.rfind(c)`), or None. */
  function LastIndexOf(s: string, c: char): (r: Option<nat>)
    ensures r.Some? ==> r.value < |s| && s[r.value] == c
    ensures r.Some? ==> forall k :: r.value < k < |s| ==> s[k] != c
    ensures r.None? ==> forall k :: 0 <= k < |s| ==> s[k] != c
  {
    if s == [] then None
    else if s[|s| - 1] == c then Some(|s| - 1)
    else LastIndexOf(s[..|s| - 1], c)
  }

  /** The number of whitespace characters at the start of `s`. */
  function LeadingSpaces(s: string): (n: nat)
    ensures n <= |s|
    ensures forall i :: 0 <= i < n ==> IsSpace(s[i])
    ensures n < |s| ==> !IsSpace(s[n])
  {
    SpacesFrom(s, 0)
  }

  /** Leading whitespace that ends inside `x` is not affected by what follows `x`. */
  lemma LeadingSpacesStop(x: string, y: string)
    requires LeadingSpaces(x) < |x|
    ensures LeadingSpaces(x + y) == LeadingSpaces(x)
  {
    var n := LeadingSpaces(x);
    assert (x + y)[n] == x[n];
    SpacesFromIs(x + y, 0, n);
  }

  /** The number of whitespace characters at the end of `s`. */
  function TrailingSpaces(s: string): (n: nat)
    ensures n <= |s|
    ensures forall i :: |s| - n <= i < |s| ==> IsSpace(s[i])
    ensures n < |s| ==> !IsSpace(s[|s| - 1 - n])
  {
    if s != [] && IsSpace(s[|s| - 1]) then 1 + TrailingSpaces(s[..|s| - 1]) else 0
  }

  /** `s.strip()`: the longest factor of `s` that drops only whitespace at both ends. */
  function Strip(s: string): (r: string)
    ensures NoOuterSpace(r)
    ensures |r| <= |s|
    ensures NoOuterSpace(s) ==> r == s
  {
    var t := s[LeadingSpaces(s)..];
    t[..|t| - TrailingSpaces(t)]
  }

  /** Whitespace added on both sides of a string does not change what `strip` returns. */
  lemma {:induction false} StripPadded(w1: string, x: string, w2: string)
    requires AllSpace(w1) && AllSpace(w2)
    ensures Strip(w1 + x + w2) == Strip(x)
  {
    var s := w1 + x + w2;
    assert s == w1 + (x + w2);
    LeadingAfterSpaces(w1, x + w2);
    LeadingSpacesPrefix(x, w2);
    if LeadingSpaces(x) < |x| {
      StripPaddedInner(w1, x, w2);
    } else {
      assert LeadingSpaces(s) == |s|;
    }
  }

  lemma StripPaddedInner(w1: string, x: string, w2: string)
    requires AllSpace(w2)
    requires LeadingSpaces(w1 + x + w2) == |w1| + LeadingSpaces(x)
    ensures Strip(w1 + x + w2) == Strip(x)
  {
    var s := w1 + x + w2;
    var tx := x[LeadingSpaces(x)..];
    assert s[LeadingSpaces(s)..] == tx + w2;
    TrailingAfterSpaces(tx, w2);
  }

  lemma LeadingAfterSpaces(w: string, y: string)
    requires AllSpace(w)
    ensures LeadingSpaces(w + y) == |w| + LeadingSpaces(y)
  {
    var n := LeadingSpaces(y);
    var s := w + y;
    forall i | 0 <= i < |w| + n ensures IsSpace(s[i]) {
      if i >= |w| { assert s[i] == y[i - |w|]; }
    }
    if |w| + n < |s| {
      assert s[|w| + n] == y[n];
    }
    SpacesFromIs(s, 0, |w| + n);
  }

  lemma LeadingSpacesPrefix(x: string, w: string)
    requires AllSpace(w)
    ensures LeadingSpaces(x + w) == if LeadingSpaces(x) < |x| then LeadingSpaces(x) else |x| + |w|
  {
    if LeadingSpaces(x) < |x| {
      LeadingSpacesStop(x, w);
    } else {
      var s := x + w;
      forall i | 0 <= i < |s| ensures IsSpace(s[i]) {
        if i >= |x| { assert s[i] == w[i - |x|]; }
      }
      SpacesFromIs(s, 0, |s|);
    }
  }

  lemma {:induction false} TrailingAfterSpaces(t: string, w: string)
    requires AllSpace(w)
    ensures var s := t + w; s[..|s| - TrailingSpaces(s)] == t[..|t| - TrailingSpaces(t)]
    decreases |w|
  {
    if w == [] {
      assert t + w == t;
    } else {
      var s := t + w;
      assert s[..|s| - 1] == t + w[..|w| - 1];
      TrailingAfterSpaces(t, w[..|w| - 1]);
    }
  }

  /** `s.lstrip(c)` for a single character `c`. */
  function LStripChar(s: string, c: char): (r: string)
    ensures |r| <= |s| && r == s[|s| - |r|..]
    ensures r == [] || r[0] != c
    ensures forall i :: 0 <= i < |s| - |r| ==> s[i] == c
  {
    if s != [] && s[0] == c then LStripChar(s[1..], c) else s
  }

  /** `s.replace(pat, rep)`: every non-overlapping occurrence, scanning left to right. */
  function Replace(s: string, pat: string, rep: string): string
    requires pat != ""
  {
    ReplaceFrom(s, pat, rep, 0)
  }

  /** `s[i:].replace(pat, rep)`, with occurrences located by their offsets in `s`. */
  function ReplaceFrom(s: string, pat: string, rep: string, i: nat): string
    requires pat != "" && i <= |s|
    decreases |s| - i
  {
    if At(s, pat, i) then rep + ReplaceFrom(s, pat, rep, i + |pat|)
    else if i == |s| then []
    else [s[i]] + ReplaceFrom(s, pat, rep, i + 1)
  }

  /** Where `pat` never occurs, `replace` leaves the string unchanged. */
  lemma {:induction false} ReplaceFromAbsent(s: string, pat: string, rep: string, i: nat)
    requires pat != "" && i <= |s|
    requires forall k :: i <= k <= |s| ==> !At(s, pat, k)
    ensures ReplaceFrom(s, pat, rep, i) == s[i..]
    decreases |s| - i
  {
    if i < |s| {
      ReplaceFromAbsent(s, pat, rep, i + 1);
      assert s[i..] == [s[i]] + s[i + 1..];
    }
  }

  /** A string in which `pat` never occurs is left unchanged by `replace`. */
  lemma ReplaceAbsent(s: string, pat: string, rep: string)
    requires pat != "" && !Contains(s, pat)
    ensures Replace(s, pat, rep) == s
  {
    ReplaceFromAbsent(s, pat, rep, 0);
  }

  /** `s.split(sep)` for a one-character separator. */
  function Split(s: string, sep: char): (parts: seq<string>)
    ensures |parts| >= 1
    ensures forall i :: 0 <= i < |parts| ==> sep !in parts[i]
    decreases |s|
  {
    match CharFrom(s, {sep}, 0)
    case None => [s]
    case Some(k) => [s[..k]] + Split(s[k + 1..], sep)
  }

  /** `sep.join(parts)`. */
  function Join(sep: string, parts: seq<string>): string
  {
    if parts == [] then ""
    else if |parts| == 1 then parts[0]
    else parts[0] + sep + Join(sep, parts[1..])
  }

  /** Joining the pieces of a split with the same separator gives the original string back. */
  lemma {:induction false} JoinSplit(s: string, sep: char)
    ensures Join([sep], Split(s, sep)) == s
    decreases |s|
  {
    match CharFrom(s, {sep}, 0)
    case None =>
    case Some(k) =>
      var rest := s[k + 1..];
      var parts := [s[..k]] + Split(rest, sep);
      JoinSplit(rest, sep);
      assert Split(s, sep) == parts;
      assert parts[1..] == Split(rest, sep);
      assert Join([sep], parts) == s[..k] + [sep] + Join([sep], Split(rest, sep));
      assert s == s[..k] + [sep] + rest;
  }

  /** Every character of every piece of a split comes from the original string. */
  lemma {:induction false} SplitChars(s: string, sep: char, i: nat, c: char)
    requires i < |Split(s, sep)| && c in Split(s, sep)[i]
    ensures c in s
    decreases |s|
  {
    match CharFrom(s, {sep}, 0)
    case None =>
    case Some(k) =>
      if i > 0 {
        SplitChars(s[k + 1..], sep, i - 1, c);
      }
  }

  /** The number a string of decimal digits spells, most significant digit first. */
  function DecimalValue(s: string): nat
    requires forall i :: 0 <= i < |s| ==> '0' <= s[i] <= '9'
  {
    if s == [] then 0 else 10 * DecimalValue(s[..|s| - 1]) + (s[|s| - 1] - '0') as nat
  }

  /** The decimal digits of a natural number, as Python's `str(n)`: digits only, no
      leading zero, spelling `n`. */
  function NatToString(n: nat): (r: string)
    ensures |r| >= 1
    ensures forall i :: 0 <= i < |r| ==> '0' <= r[i] <= '9'
    ensures r[0] == '0' ==> r == "0"
    ensures DecimalValue(r) == n
  {
    var d := ['0' + (n % 10) as char];
    if n < 10 then d
    else
      var r := NatToString(n / 10) + d;
      assert r[..|r| - 1] == NatToString(n / 10);
      r
  }

  /** A lower-case word found ignoring case inside `s[g..e]` is found in the lowered slice. */
  lemma LoweredContains(s: string, g: nat, e: nat, p: nat, w: string)
    requires g <= p && p + |w| <= e <= |s| && AtCaseless(s, w, p)
    requires forall j :: 0 <= j < |w| ==> Lower(w[j]) == w[j]
    ensures Contains(LowerStr(s[g..e]), w)
  {
    var low := LowerStr(s[g..e]);
    forall j | 0 <= j < |w| ensures low[p - g + j] == w[j] {
      assert s[g..e][p - g + j] == s[p + j];
    }
    assert At(low, w, p - g);
  }
}
