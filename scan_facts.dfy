/** What the scanners find in text of a known shape: a search passes over text that no
    match can start in, and a well-formed fenced block is matched with its body as the group. */
module ScanFacts {
  import opened Values
  import opened Strings
  import opened Scanners

  /** A search returns the first offset where the pattern matches. */
  lemma {:induction false} SearchIs(s: string, pat: Pattern, i: nat, q: nat)
    requires i <= q <= |s| && MatchAt(s, q, pat).Some?
    requires forall k :: i <= k < q ==> MatchAt(s, k, pat).None?
    ensures Search(s, pat, i).Some? && Search(s, pat, i).value == q
    decreases q - i
  {
    if i < q {
      SearchIs(s, pat, i + 1, q);
    }
  }

  /** A search passes over characters that cannot begin a match. */
  lemma SearchSkip(s: string, pat: Pattern, i: nat, j: nat)
    requires i <= j <= |s|
    requires forall k :: i <= k < j ==> !Opens(pat, s[k])
    ensures Search(s, pat, i) == Search(s, pat, j)
  {
    NoOpenersFrom(s, pat, i, j);
    SkipOver(s, pat, i, j);
  }

  /** No character from offset `i` up to `j` can begin a match, one offset at a time. */
  predicate NoOpeners(s: string, pat: Pattern, i: nat, j: nat)
    requires i <= j <= |s|
    decreases j - i
  {
    i == j || (!Opens(pat, s[i]) && NoOpeners(s, pat, i + 1, j))
  }

  /** The quantified form gives the one-offset-at-a-time form. */
  lemma {:induction false} NoOpenersFrom(s: string, pat: Pattern, i: nat, j: nat)
    requires i <= j <= |s|
    requires forall k :: i <= k < j ==> !Opens(pat, s[k])
    ensures NoOpeners(s, pat, i, j)
    decreases j - i
  {
    if i < j {
      NoOpenersFrom(s, pat, i + 1, j);
    }
  }

  /** The search passes over the offsets one at a time. */
  lemma {:induction false} SkipOver(s: string, pat: Pattern, i: nat, j: nat)
    requires i <= j <= |s| && NoOpeners(s, pat, i, j)
    ensures Search(s, pat, i) == Search(s, pat, j)
    decreases j - i
  {
    if i < j {
      SearchStep(s, pat, i);
      SkipOver(s, pat, i + 1, j);
    }
  }

  /** A search passes over a character that cannot begin a match. */
  lemma SearchStep(s: string, pat: Pattern, i: nat)
    requires i < |s| && !Opens(pat, s[i])
    ensures Search(s, pat, i) == Search(s, pat, i + 1)
  {
    assert MatchAt(s, i, pat).None?;
  }

  /** Text in which no character can begin a match holds no match: the search fails,
      `findall` finds nothing and `sub` leaves the text alone. */
  lemma SearchNoOpener(s: string, pat: Pattern, i: nat)
    requires i <= |s|
    requires forall k :: i <= k < |s| ==> !Opens(pat, s[k])
    ensures Search(s, pat, i).None?
    ensures FindAll(s, pat, i) == []
    ensures Sub(s, pat, i) == s[i..]
  {
    SearchSkip(s, pat, i, |s|);
  }

  /** `findall` reports the first match and then goes on from where it ended. */
  lemma FindAllHead(s: string, pat: Pattern, i: nat)
    requires i <= |s| && Search(s, pat, i).Some?
    ensures FindAll(s, pat, i) == [SearchSpan(s, pat, i)] + FindAll(s, pat, SearchSpan(s, pat, i).end)
  {
  }

  /** `findall` with exactly one match: the first from `i`, and no match after it. */
  lemma FindAllOne(s: string, pat: Pattern, i: nat, sp: Span)
    requires i <= |s| && Search(s, pat, i).Some? && SearchSpan(s, pat, i) == sp
    requires Search(s, pat, sp.end).None?
    ensures FindAll(s, pat, i) == [sp]
  {
    FindAllHead(s, pat, i);
  }

  /** `findall` with exactly two matches: the first from `i`, the second from where the
      first ended, and no match after the second. */
  lemma FindAllTwo(s: string, pat: Pattern, i: nat, sp1: Span, sp2: Span)
    requires i <= |s| && Search(s, pat, i).Some? && SearchSpan(s, pat, i) == sp1
    requires Search(s, pat, sp1.end).Some? && SearchSpan(s, pat, sp1.end) == sp2
    requires Search(s, pat, sp2.end).None?
    ensures FindAll(s, pat, i) == [sp1, sp2]
  {
    FindAllHead(s, pat, i);
    FindAllHead(s, pat, sp1.end);
  }

  /** `sub` with a single match: when the first match starts right after `pre` and what
      follows it, `post`, holds no character that can begin a match, the match is cut
      out and the rest is kept. */
  lemma SubOnce(s: string, pat: Pattern, pre: string, post: string)
    requires Search(s, pat, 0).Some? && Search(s, pat, 0).value == |pre| && At(s, pre, 0)
    requires s[SearchSpan(s, pat, 0).end..] == post
    requires forall k :: 0 <= k < |post| ==> !Opens(pat, post[k])
    ensures Sub(s, pat, 0) == pre + post
  {
    var e := SearchSpan(s, pat, 0).end;
    forall k | e <= k < |s| ensures !Opens(pat, s[k]) {
      assert s[k] == post[k - e];
    }
    SearchNoOpener(s, pat, e);
    PlacedWhole(s, pre, 0);
  }

  /** Occurrences inside a placed string are occurrences in the text, shifted by the offset. */
  lemma AtWithin(s: string, x: string, off: nat, p: string, k: nat)
    requires At(s, x, off) && k + |p| <= |x|
    ensures At(s, p, off + k) <==> At(x, p, k)
    ensures AtCaseless(s, p, off + k) <==> AtCaseless(x, p, k)
  {
    forall j | 0 <= j < |p| ensures (s[off + k + j] == p[j]) == (x[k + j] == p[j]) {
      assert s[off + (k + j)] == x[k + j];
    }
  }

  /** The first occurrence in `x` is the first occurrence in the text from any offset up to it. */
  lemma FindWithin(s: string, x: string, off: nat, p: string, caseless: bool, g: nat)
    requires At(s, x, off) && FindFrom(x, p, 0, caseless).Some?
    requires off <= g <= off + FindFrom(x, p, 0, caseless).value
    ensures FindFrom(s, p, g, caseless).Some? && FindFrom(s, p, g, caseless).value == off + FindFrom(x, p, 0, caseless).value
  {
    var q := FindFrom(x, p, 0, caseless).value;
    forall k | 0 <= k <= q
      ensures At(s, p, off + k) <==> At(x, p, k)
      ensures AtCaseless(s, p, off + k) <==> AtCaseless(x, p, k)
    {
      AtWithin(s, x, off, p, k);
    }
    if caseless {
      forall k | g <= k < off + q ensures !AtCaseless(s, p, k) {
        assert !AtCaseless(x, p, k - off);
      }
      IndexFromCaselessIs(s, p, g, off + q);
    } else {
      forall k | g <= k < off + q ensures !At(s, p, k) {
        assert !At(x, p, k - off);
      }
      IndexFromIs(s, p, g, off + q);
    }
  }

  /** The closing texts the fences use: three backticks, alone or after a newline. */
  predicate IsClose(close: string)
  {
    close == Ticks || close == "\n" + Ticks
  }

  /** After a placed body without backticks, the closing text placed right after it is
      the first one found from anywhere in the body. */
  lemma CloseFirst(s: string, body: string, b: nat, close: string, m: nat)
    requires At(s, body, b) && '`' !in body && IsClose(close) && At(s, close, b + |body|)
    requires b <= m <= b + |body|
    ensures IndexFrom(s, close, m).Some? && IndexFrom(s, close, m).value == b + |body|
  {
    var e := b + |body|;
    forall k | m <= k < e ensures !At(s, close, k) {
      assert s[b + (k - b)] == body[k - b];
      if close != Ticks {
        if k + 1 < e {
          assert s[b + (k + 1 - b)] == body[k + 1 - b];
        } else {
          assert s[e + 0] == close[0];
        }
        assert s[k + 1] != close[1];
      } else {
        assert s[k + 0] != close[0];
      }
    }
    IndexFromIs(s, close, m, e);
  }

  /** A body that is neither blank nor holds a backtick, and holds the marker after its
      leading whitespace. */
  predicate GoodBody(body: string, caseless: bool, marker: string)
  {
    && '`' !in body
    && LeadingSpaces(body) < |body|
    && (marker == "" || (FindFrom(body, marker, 0, caseless).Some? && LeadingSpaces(body) <= FindFrom(body, marker, 0, caseless).value))
  }

  /** From any start in the leading whitespace of a placed good body, the lazy group runs
      to the closing text placed after the body. */
  lemma LazyBodyAt(s: string, body: string, b: nat, caseless: bool, marker: string, close: string, g: nat)
    requires At(s, body, b) && GoodBody(body, caseless, marker) && IsClose(close) && At(s, close, b + |body|)
    requires b <= g <= b + LeadingSpaces(body)
    ensures LazyBody(s, g, caseless, marker, close).Some? && LazyBody(s, g, caseless, marker, close).value.e1 == b + |body|
  {
    if marker == "" {
      CloseFirst(s, body, b, close, g);
    } else {
      FindWithin(s, body, b, marker, caseless, g);
      var m := b + FindFrom(body, marker, 0, caseless).value + |marker|;
      assert MarkerEnd(s, g, caseless, marker).value == m;
      CloseFirst(s, body, b, close, m);
    }
  }

  /** Trying the group starts after the newlines of the whitespace run succeeds at the
      first one when every start would succeed, ending where all of them end. */
  lemma {:induction false} CandidatesFirst(s: string, t: nat, j: nat, caseless: bool, marker: string, close: string, e: nat)
    requires t < j <= |s| && s[t] == '\n'
    requires forall g :: t < g <= j ==> LazyBody(s, g, caseless, marker, close).Some? && LazyBody(s, g, caseless, marker, close).value.e1 == e
    ensures Candidates(s, t, j, caseless, marker, close).Some? && Candidates(s, t, j, caseless, marker, close).value.e1 == e
    decreases j - t
  {
    if s[j - 1] != '\n' {
      CandidatesFirst(s, t, j - 1, caseless, marker, close, e);
    }
  }

  /** Earlier tags that do not match give way to the tag that does. */
  lemma {:induction false} MatchFenceAt(s: string, i: nat, tags: seq<string>, ti: nat, n: nat, caseless: bool, marker: string, close: string)
    requires i <= |s| && ti <= n < |tags| && TagAt(s, Ticks + tags[n], i, caseless)
    requires forall j :: ti <= j < n ==> !TagAt(s, Ticks + tags[j], i, caseless)
    requires AfterTag(s, i + |Ticks + tags[n]|, caseless, marker, close).Some?
    ensures var r := MatchFence(s, i, tags, ti, caseless, marker, close); var a := AfterTag(s, i + |Ticks + tags[n]|, caseless, marker, close);
      r.Some? && r.value.g1 == a.value.g1 && r.value.e1 == a.value.e1 && r.value.end == a.value.end
    decreases n - ti
  {
    if ti < n {
      assert !TagAt(s, Ticks + tags[ti], i, caseless);
      MatchFenceAt(s, i, tags, ti + 1, n, caseless, marker, close);
    }
  }

  /** After the newline at `t` that ends the tag line, a placed good body and closing
      text: the group starts within the body's leading whitespace and ends at the closing text. */
  lemma AfterTagLayout(s: string, t: nat, body: string, caseless: bool, marker: string, close: string)
    requires IsClose(close) && GoodBody(body, caseless, marker)
    requires t < |s| && s[t] == '\n' && At(s, body, t + 1) && At(s, close, t + 1 + |body|)
    ensures var r := AfterTag(s, t, caseless, marker, close);
      r.Some? && r.value.e1 == t + 1 + |body| && r.value.g1 <= t + 1 + LeadingSpaces(body)
  {
    var L := LeadingSpaces(body);
    var b := t + 1;
    forall k | b <= k < b + L ensures IsSpace(s[k]) {
      assert s[b + (k - b)] == body[k - b];
    }
    assert s[b + L] == body[L];
    SpacesFromIs(s, t, b + L);
    forall g | t < g <= b + L
      ensures LazyBody(s, g, caseless, marker, close).Some? && LazyBody(s, g, caseless, marker, close).value.e1 == b + |body|
    {
      LazyBodyAt(s, body, b, caseless, marker, close, g);
    }
    CandidatesFirst(s, t, b + L, caseless, marker, close, b + |body|);
  }

  /** A group that starts within the leading whitespace of a placed body and ends with it
      strips to what the body strips to. */
  lemma GroupStrip(s: string, body: string, b: nat, sp: Span)
    requires InBounds(sp, 0, |s|) && sp.e1 == b + |body| && s[b..b + |body|] == body
    requires b <= sp.g1 <= b + LeadingSpaces(body)
    ensures Strip(Group(s, sp)) == Strip(body)
  {
    var d := sp.g1 - b;
    assert Group(s, sp) == body[d..];
    StripDrop(body, d);
  }

  /** Dropping part of the leading whitespace does not change what `strip` returns. */
  lemma StripDrop(x: string, d: nat)
    requires d <= LeadingSpaces(x)
    ensures Strip(x[d..]) == Strip(x)
  {
    assert AllSpace(x[..d]);
    assert x[..d] + x[d..] + "" == x;
    StripPadded(x[..d], x[d..], "");
  }

  /** A string placed at `b` is the text from `b` on for its length. */
  lemma PlacedWhole(s: string, x: string, b: nat)
    requires At(s, x, b)
    ensures s[b..b + |x|] == x
  {
    forall k | 0 <= k < |x| ensures s[b..b + |x|][k] == x[k] {
      assert s[b + k] == x[k];
    }
  }

  /** The text from offset `b + d` to the end of a string placed at `b` is that string from `d`. */
  lemma PlacedSlice(s: string, x: string, b: nat, d: nat)
    requires At(s, x, b) && d <= |x|
    ensures s[b + d..b + |x|] == x[d..]
  {
    forall k | 0 <= k < |x| - d ensures s[b + d..b + |x|][k] == x[d..][k] {
      assert s[b + (d + k)] == x[d + k];
    }
  }

  /** A fenced block laid out at offset `o`: the tag, a newline at `t`, the body from `t + 1`
      and the closing text after it. The fence pattern matches there, the match ends with
      the closing text, and the group is the body less whitespace the `\s*\n` took. */
  lemma FenceAtLayout(s: string, o: nat, tags: seq<string>, n: nat, caseless: bool, marker: string, close: string, body: string, t: nat)
    requires n < |tags| && IsClose(close) && GoodBody(body, caseless, marker)
    requires At(s, Ticks + tags[n], o) && forall j :: 0 <= j < n ==> !TagAt(s, Ticks + tags[j], o, caseless)
    requires t == o + |Ticks + tags[n]| && t < |s| && s[t] == '\n' && At(s, body, t + 1) && At(s, close, t + 1 + |body|)
    ensures MatchAt(s, o, Fence(tags, caseless, marker, close)).Some?
    ensures var sp := MatchAt(s, o, Fence(tags, caseless, marker, close)).value;
      && t + 1 <= sp.g1 <= t + 1 + LeadingSpaces(body)
      && sp.e1 == t + 1 + |body|
      && sp.end == t + 1 + |body| + |close|
  {
    AfterTagLayout(s, t, body, caseless, marker, close);
    assert TagAt(s, Ticks + tags[n], o, caseless);
    MatchFenceAt(s, o, tags, 0, n, caseless, marker, close);
  }

  /** The group of a match that starts within the leading whitespace of a placed body and
      ends with it strips to what the body strips to, and is the body when that has no
      leading whitespace. */
  lemma FenceGroup(s: string, body: string, b: nat, sp: Span)
    requires InBounds(sp, 0, |s|) && At(s, body, b)
    requires b <= sp.g1 <= b + LeadingSpaces(body) && sp.e1 == b + |body|
    ensures Strip(Group(s, sp)) == Strip(body)
    ensures LeadingSpaces(body) == 0 ==> Group(s, sp) == body
  {
    PlacedWhole(s, body, b);
    GroupStrip(s, body, b, sp);
    GroupWhole(s, body, b, sp);
  }

  /** When the body has no leading whitespace, the group that ends with it is all of it. */
  lemma GroupWhole(s: string, body: string, b: nat, sp: Span)
    requires InBounds(sp, 0, |s|) && sp.e1 == b + |body| && s[b..b + |body|] == body
    requires b <= sp.g1 <= b + LeadingSpaces(body)
    ensures LeadingSpaces(body) == 0 ==> Group(s, sp) == body
  {
  }

  /** A fenced block as a model writes it: backticks and tag, a newline, the body and
      the closing text. */
  function Block(tag: string, body: string, close: string): (b: string)
    ensures |b| == 3 + |tag| + 1 + |body| + |close|
  {
    Ticks + tag + "\n" + body + close
  }

  /** The character at offset `k` of a text with `pre` in front of a block, by the part
      of the block the offset falls in. */
  lemma BlockChar(pre: string, tag: string, body: string, close: string, post: string, k: nat)
    requires k < |pre| + |Block(tag, body, close)| + |post|
    ensures var s := pre + Block(tag, body, close) + post;
      var t := |pre| + 3 + |tag|; var c := t + 1 + |body|; var e := c + |close|;
      && (k < |pre| ==> s[k] == pre[k])
      && (|pre| <= k < |pre| + 3 ==> s[k] == '`')
      && (|pre| + 3 <= k < t ==> s[k] == tag[k - |pre| - 3])
      && (k == t ==> s[k] == '\n')
      && (t < k < c ==> s[k] == body[k - t - 1])
      && (c <= k < e ==> s[k] == close[k - c])
      && (e <= k ==> s[k] == post[k - e])
  {
    var blk := Block(tag, body, close);
    assert blk == Ticks + tag + "\n" + body + close;
    var s := pre + blk + post;
    if |pre| <= k < |pre| + |blk| {
      assert s[k] == blk[k - |pre|];
    }
  }

  /** Where the parts of a block sit in a text that has `pre` in front of the block. */
  lemma BlockLayout(pre: string, tag: string, body: string, close: string, post: string)
    ensures var s := pre + Block(tag, body, close) + post; var t := |pre| + 3 + |tag|; var e := t + 1 + |body| + |close|;
      && |s| == e + |post|
      && At(s, pre, 0) && At(s, Ticks + tag, |pre|) && At(s, Ticks, |pre|) && At(s, tag, |pre| + 3)
      && t < |s| && s[t] == '\n'
      && At(s, body, t + 1) && At(s, close, t + 1 + |body|) && At(s, post, e)
      && s[e..] == post
  {
    var s := pre + Block(tag, body, close) + post;
    var t := |pre| + 3 + |tag|;
    var e := t + 1 + |body| + |close|;
    forall j | 0 <= j < |pre| ensures s[0 + j] == pre[j] {
      BlockChar(pre, tag, body, close, post, j);
    }
    forall j | 0 <= j < 3 + |tag| ensures s[|pre| + j] == (Ticks + tag)[j] {
      BlockChar(pre, tag, body, close, post, |pre| + j);
    }
    forall j | 0 <= j < 3 ensures s[|pre| + j] == Ticks[j] {
      BlockChar(pre, tag, body, close, post, |pre| + j);
    }
    forall j | 0 <= j < |tag| ensures s[|pre| + 3 + j] == tag[j] {
      BlockChar(pre, tag, body, close, post, |pre| + 3 + j);
    }
    BlockChar(pre, tag, body, close, post, t);
    forall j | 0 <= j < |body| ensures s[t + 1 + j] == body[j] {
      BlockChar(pre, tag, body, close, post, t + 1 + j);
    }
    forall j | 0 <= j < |close| ensures s[t + 1 + |body| + j] == close[j] {
      BlockChar(pre, tag, body, close, post, t + 1 + |body| + j);
    }
    forall j | 0 <= j < |post| ensures s[e + j] == post[j] {
      BlockChar(pre, tag, body, close, post, e + j);
    }
    PlacedWhole(s, post, e);
  }

  /** A search from the start finds a fenced block laid out at offset `o` when no
      backtick comes before it. */
  lemma FenceSearchLayout(s: string, o: nat, tags: seq<string>, n: nat, caseless: bool, marker: string, close: string, body: string, t: nat)
    requires n < |tags| && IsClose(close) && GoodBody(body, caseless, marker)
    requires At(s, Ticks + tags[n], o) && forall j :: 0 <= j < n ==> !TagAt(s, Ticks + tags[j], o, caseless)
    requires forall k :: 0 <= k < o ==> s[k] != '`'
    requires t == o + |Ticks + tags[n]| && t < |s| && s[t] == '\n' && At(s, body, t + 1) && At(s, close, t + 1 + |body|)
    ensures var pat := Fence(tags, caseless, marker, close);
      && Search(s, pat, 0).Some? && Search(s, pat, 0).value == o
      && t + 1 <= SearchSpan(s, pat, 0).g1 <= t + 1 + LeadingSpaces(body)
      && SearchSpan(s, pat, 0).e1 == t + 1 + |body|
      && SearchSpan(s, pat, 0).end == t + 1 + |body| + |close|
  {
    var pat := Fence(tags, caseless, marker, close);
    FenceAtLayout(s, o, tags, n, caseless, marker, close, body, t);
    SearchSkip(s, pat, 0, o);
    SearchIs(s, pat, o, o);
  }

  /** The group of the first match strips to what a body placed at `b` strips to when it
      starts within the body's leading whitespace and ends with the body. */
  lemma SearchGroup(s: string, pat: Pattern, body: string, b: nat)
    requires Search(s, pat, 0).Some? && At(s, body, b)
    requires b <= SearchSpan(s, pat, 0).g1 <= b + LeadingSpaces(body) && SearchSpan(s, pat, 0).e1 == b + |body|
    ensures Strip(Group(s, SearchSpan(s, pat, 0))) == Strip(body)
    ensures LeadingSpaces(body) == 0 ==> Group(s, SearchSpan(s, pat, 0)) == body
  {
    FenceGroup(s, body, b, SearchSpan(s, pat, 0));
  }

  /** Where the search finds a fenced block that text without backticks comes before. */
  lemma FenceSearchFinds(pre: string, tags: seq<string>, n: nat, caseless: bool, marker: string, close: string, body: string, post: string)
    requires '`' !in pre
    requires n < |tags| && IsClose(close) && GoodBody(body, caseless, marker)
    requires forall j :: 0 <= j < n ==> !TagAt(pre + Block(tags[n], body, close) + post, Ticks + tags[j], |pre|, caseless)
    ensures var s := pre + Block(tags[n], body, close) + post;
      var pat := Fence(tags, caseless, marker, close);
      var b := |pre| + 3 + |tags[n]| + 1;
      && Search(s, pat, 0).Some? && Search(s, pat, 0).value == |pre|
      && s[SearchSpan(s, pat, 0).end..] == post
      && At(s, body, b)
      && b <= SearchSpan(s, pat, 0).g1 <= b + LeadingSpaces(body)
      && SearchSpan(s, pat, 0).e1 == b + |body|
  {
    var s := pre + Block(tags[n], body, close) + post;
    FenceBlockParts(pre, tags[n], body, close, post);
    var t := |pre| + 3 + |tags[n]|;
    FenceSearchLayout(s, |pre|, tags, n, caseless, marker, close, body, t);
  }

  /** The parts of a block that the fence pattern reads, in a text where no backtick
      comes before the block. */
  lemma FenceBlockParts(pre: string, tag: string, body: string, close: string, post: string)
    requires '`' !in pre
    ensures var s := pre + Block(tag, body, close) + post; var t := |pre| + 3 + |tag|; var e := t + 1 + |body| + |close|;
      && At(s, Ticks + tag, |pre|) && (forall k :: 0 <= k < |pre| ==> s[k] != '`')
      && t < |s| && s[t] == '\n'
      && At(s, body, t + 1) && At(s, close, t + 1 + |body|)
      && s[e..] == post
  {
    var s := pre + Block(tag, body, close) + post;
    var t := |pre| + 3 + |tag|;
    var e := t + 1 + |body| + |close|;
    forall k | 0 <= k < |pre| ensures s[k] != '`' {
      BlockChar(pre, tag, body, close, post, k);
    }
    forall j | 0 <= j < 3 + |tag| ensures s[|pre| + j] == (Ticks + tag)[j] {
      BlockChar(pre, tag, body, close, post, |pre| + j);
    }
    BlockChar(pre, tag, body, close, post, t);
    forall j | 0 <= j < |body| ensures s[t + 1 + j] == body[j] {
      BlockChar(pre, tag, body, close, post, t + 1 + j);
    }
    forall j | 0 <= j < |close| ensures s[t + 1 + |body| + j] == close[j] {
      BlockChar(pre, tag, body, close, post, t + 1 + |body| + j);
    }
    forall j | 0 <= j < |post| ensures s[e..][j] == post[j] {
      BlockChar(pre, tag, body, close, post, e + j);
    }
  }

  /** Text without backticks in front of a well-formed fenced block: `re.search` with the
      fence pattern finds the block, the match ends where the block ends, and its group
      strips to what the body strips to (and is the body when that begins with no space). */
  lemma FenceSearch(pre: string, tags: seq<string>, n: nat, caseless: bool, marker: string, close: string, body: string, post: string)
    requires '`' !in pre
    requires n < |tags| && IsClose(close) && GoodBody(body, caseless, marker)
    requires forall j :: 0 <= j < n ==> !TagAt(pre + Block(tags[n], body, close) + post, Ticks + tags[j], |pre|, caseless)
    ensures var s := pre + Block(tags[n], body, close) + post;
      var pat := Fence(tags, caseless, marker, close);
      && Search(s, pat, 0).Some? && Search(s, pat, 0).value == |pre|
      && s[SearchSpan(s, pat, 0).end..] == post
      && Strip(Group(s, SearchSpan(s, pat, 0))) == Strip(body)
      && (LeadingSpaces(body) == 0 ==> Group(s, SearchSpan(s, pat, 0)) == body)
  {
    FenceSearchFinds(pre, tags, n, caseless, marker, close, body, post);
    SearchGroup(pre + Block(tags[n], body, close) + post, Fence(tags, caseless, marker, close), body, |pre| + 3 + |tags[n]| + 1);
  }

  /** A character missing from a string is missing from where the string is placed. */
  lemma PartLacks(s: string, x: string, o: nat, c: char)
    requires At(s, x, o) && c !in x
    ensures forall k :: o <= k < o + |x| ==> s[k] != c
  {
    forall k | o <= k < o + |x| ensures s[k] != c {
      assert s[o + (k - o)] == x[k - o];
    }
  }

  /** A search fails when the pattern matches nowhere from the start offset on. */
  lemma {:induction false} SearchAbsent(s: string, pat: Pattern, i: nat)
    requires i <= |s|
    requires forall k :: i <= k <= |s| ==> MatchAt(s, k, pat).None?
    ensures Search(s, pat, i).None?
    decreases |s| - i
  {
    if i < |s| {
      SearchAbsent(s, pat, i + 1);
    }
  }

  /** A fence matches nowhere at an offset where none of its tags occurs. */
  lemma {:induction false} MatchFenceNone(s: string, i: nat, tags: seq<string>, ti: nat, caseless: bool, marker: string, close: string)
    requires i <= |s| && ti <= |tags|
    requires forall j :: ti <= j < |tags| ==> !TagAt(s, Ticks + tags[j], i, caseless)
    ensures MatchFence(s, i, tags, ti, caseless, marker, close).None?
    decreases |tags| - ti
  {
    if ti < |tags| {
      MatchFenceNone(s, i, tags, ti + 1, caseless, marker, close);
    }
  }

  /** Every backtick of `s` lies in one of two runs of three, starting at `a` and at `b`. */
  predicate TickRuns(s: string, a: nat, b: nat)
  {
    && a + 3 < b && b + 3 <= |s|
    && forall k :: 0 <= k < |s| && s[k] == '`' ==> a <= k < a + 3 || b <= k < b + 3
  }

  /** Only a run of three backticks followed by a tag can open a fence, and the match
      needs a closing run after it: in a text whose backticks form two runs, a fence none
      of whose tags follows the first run matches nowhere. */
  lemma FenceMissesRuns(s: string, a: nat, b: nat, tags: seq<string>, caseless: bool, marker: string, close: string)
    requires TickRuns(s, a, b) && IsClose(close)
    requires forall j :: 0 <= j < |tags| ==> |tags[j]| > 0
    requires forall j :: 0 <= j < |tags| ==> !TagAt(s, Ticks + tags[j], a, caseless)
    ensures Search(s, Fence(tags, caseless, marker, close), 0).None?
  {
    var pat := Fence(tags, caseless, marker, close);
    assert s[a + 3] != '`';
    forall k | 0 <= k <= |s| ensures MatchAt(s, k, pat).None? {
      if k < |s| && s[k] == '`' && k != a && k != b {
        forall j | 0 <= j < |tags| ensures !TagAt(s, Ticks + tags[j], k, caseless) {
          var d := if k < b then a + 3 - k else b + 3 - k;
          assert 0 < d < 3 && (Ticks + tags[j])[d] == '`';
          if k + d < |s| {
            assert Lower(s[k + d]) != Lower('`');
          }
        }
        MatchFenceNone(s, k, tags, 0, caseless, marker, close);
      } else if k == a {
        MatchFenceNone(s, k, tags, 0, caseless, marker, close);
      } else if k == b {
        FenceNeedsTick(s, b, tags, 0, caseless, marker, close);
      }
    }
    SearchAbsent(s, pat, 0);
  }

  /** A fence match closes with a backtick after its tag: it fails at an offset after
      whose first three characters no backtick follows. */
  lemma FenceNeedsTick(s: string, i: nat, tags: seq<string>, ti: nat, caseless: bool, marker: string, close: string)
    requires i + 3 <= |s| && ti <= |tags| && IsClose(close)
    requires forall k :: i + 3 <= k < |s| ==> s[k] != '`'
    ensures MatchFence(s, i, tags, ti, caseless, marker, close).None?
  {
    var r := MatchFence(s, i, tags, ti, caseless, marker, close);
    if r.Some? {
      FenceCloses(s, i, tags, ti, caseless, marker, close);
      CloseTick(s, close, r.value.e1);
    }
  }

  /** A closing text ends with a backtick. */
  lemma CloseTick(s: string, close: string, e: nat)
    requires At(s, close, e) && IsClose(close)
    ensures e + |close| - 1 < |s| && s[e + |close| - 1] == '`'
  {
    assert s[e + (|close| - 1)] == close[|close| - 1];
  }

  /** A fence match ends with its closing text, which starts after the tag's backticks. */
  lemma {:induction false} FenceCloses(s: string, i: nat, tags: seq<string>, ti: nat, caseless: bool, marker: string, close: string)
    requires i <= |s| && ti <= |tags| && MatchFence(s, i, tags, ti, caseless, marker, close).Some?
    ensures var sp := MatchFence(s, i, tags, ti, caseless, marker, close).value;
      i + 3 < sp.e1 + 1 && sp.e1 + |close| == sp.end && At(s, close, sp.e1)
    decreases |tags| - ti
  {
    var tag := Ticks + tags[ti];
    if !(TagAt(s, tag, i, caseless) && AfterTag(s, i + |tag|, caseless, marker, close).Some?) {
      FenceCloses(s, i, tags, ti + 1, caseless, marker, close);
    }
  }

  /** A fence with a marker has the marker inside its group: the first occurrence from
      the group's start ends by the group's end. */
  lemma {:induction false} FenceMarker(s: string, i: nat, tags: seq<string>, ti: nat, caseless: bool, marker: string, close: string)
    requires i <= |s| && ti <= |tags| && marker != ""
    requires MatchFence(s, i, tags, ti, caseless, marker, close).Some?
    ensures var sp := MatchFence(s, i, tags, ti, caseless, marker, close).value;
      FindFrom(s, marker, sp.g1, caseless).Some? && FindFrom(s, marker, sp.g1, caseless).value + |marker| <= sp.e1
    decreases |tags| - ti
  {
    var tag := Ticks + tags[ti];
    if TagAt(s, tag, i, caseless) && AfterTag(s, i + |tag|, caseless, marker, close).Some? {
      var t := i + |tag|;
      CandidatesMarker(s, t, SpacesFrom(s, t), caseless, marker, close);
    } else {
      FenceMarker(s, i, tags, ti + 1, caseless, marker, close);
    }
  }

  lemma {:induction false} CandidatesMarker(s: string, t: nat, j: nat, caseless: bool, marker: string, close: string)
    requires t <= j <= |s| && marker != ""
    requires Candidates(s, t, j, caseless, marker, close).Some?
    ensures var sp := Candidates(s, t, j, caseless, marker, close).value;
      FindFrom(s, marker, sp.g1, caseless).Some? && FindFrom(s, marker, sp.g1, caseless).value + |marker| <= sp.e1
    decreases j - t
  {
    if !(s[j - 1] == '\n' && LazyBody(s, j, caseless, marker, close).Some?) {
      CandidatesMarker(s, t, j - 1, caseless, marker, close);
    }
  }

  /** A block whose tag, body and surroundings hold no backtick has exactly two runs of
      backticks: the opening one and the one the closing text ends with. */
  lemma BlockTicks(pre: string, tag: string, body: string, close: string, post: string)
    requires '`' !in pre && '`' !in tag && '`' !in body && '`' !in post && IsClose(close)
    ensures var s := pre + Block(tag, body, close) + post; var e := |pre| + 3 + |tag| + 1 + |body| + |close|;
      && TickRuns(s, |pre|, e - 3)
      && (|tag| > 0 ==> s[|pre| + 3] == tag[0])
      && (|post| > 0 ==> s[e] == post[0])
  {
    var s := pre + Block(tag, body, close) + post;
    var t := |pre| + 3 + |tag|;
    var e := t + 1 + |body| + |close|;
    forall k | 0 <= k < |s| && s[k] == '`' ensures |pre| <= k < |pre| + 3 || e - 3 <= k < e {
      BlockChar(pre, tag, body, close, post, k);
    }
    BlockChar(pre, tag, body, close, post, |pre| + 3);
    if |post| > 0 {
      BlockChar(pre, tag, body, close, post, e);
    }
  }

  /** No tag follows a run of backticks at `k` that ends the text or is followed by a
      character other than the tag's first. */
  lemma RunUntagged(s: string, k: nat, tag: string)
    requires k + 3 <= |s| && |tag| > 0 && (k + 3 == |s| || s[k + 3] != tag[0])
    ensures !TagAt(s, Ticks + tag, k, false)
  {
    assert (Ticks + tag)[3] == tag[0];
  }
}
