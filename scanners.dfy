/** The regular expressions the extractors use, each matched exactly as Python's `re`
    module matches it (with DOTALL throughout), written as scanners over the text.

    A pattern is tried at an offset of the text by `MatchAt`; `Search`, `FindAll` and
    `Sub` give `re.search`, `re.findall` and `re.sub(pattern, '', text)` on top of it.
    Every position is an offset of the whole text. */
module Scanners {
  import opened Values
  import opened Strings

  /** The shapes of regular expression that occur in the extractors.

      `Fence(tags, caseless, marker, close)` is ``` `TAG\s*\n(.*?MARKER.*?)CLOSE` ```, where the
      three backticks are followed by one of `tags` (tried in order, as an optional group or an
      alternation is), `marker` may be empty (no marker: the group is `(.*?)`), and `caseless`
      is IGNORECASE. The closing texts used contain no letters, so case does not affect them.

      `FileBlock(languages)` is ``` `(?:L1|L2|...):([^\n]+)\n(.*?)` ``` followed by three backticks.
      `CreateTable` is `(CREATE TABLE[^;]+(?:;|$))` with IGNORECASE and MULTILINE.
      `PlanObject` is `\{[\s\n]*"api_route_plan"[\s\S]*?\}`.
      `RouteObject` is `\{[^{}]*"(?:base_url|routes)"[^{}]*\}`.
      `OuterBraces` is `\{[\s\S]*\}`. */
  datatype Pattern =
    | Fence(tags: seq<string>, caseless: bool, marker: string, close: string)
    | FileBlock(languages: seq<string>)
    | CreateTable
    | PlanObject
    | RouteObject
    | OuterBraces

  /** Where the groups of a match are and where the match ends, as offsets of the text.
      A pattern with one group has it at `g1..e1`; a pattern without groups reports the
      whole match there (as `findall` does); `g2..e2` is the second group of a `FileBlock`
      and is empty for the other patterns. */
  datatype Span = Span(g1: nat, e1: nat, g2: nat, e2: nat, end: nat)

  /** A span of a non-empty match that starts at offset `i` of a text of length `n`. */
  predicate InBounds(sp: Span, i: nat, n: nat)
  {
    i <= sp.g1 <= sp.e1 <= sp.end && i <= sp.g2 <= sp.e2 <= sp.end && i < sp.end <= n
  }

  /** The characters a match of `pat` can begin with. */
  predicate Opens(pat: Pattern, c: char)
  {
    match pat
    case CreateTable => c == 'C' || c == 'c'
    case PlanObject => c == '{'
    case RouteObject => c == '{'
    case OuterBraces => c == '{'
    case _ => c == '`'
  }

  const Ticks := "```"

  /** `p` occurs at offset `k`, ignoring case when `caseless`. */
  predicate TagAt(s: string, p: string, k: nat, caseless: bool)
  {
    if caseless then AtCaseless(s, p, k) else At(s, p, k)
  }

  /** The first occurrence of `p` at or after offset `i`, ignoring case when `caseless`. */
  function FindFrom(s: string, p: string, i: nat, caseless: bool): (r: Option<nat>)
    requires i <= |s|
    ensures r.Some? ==> i <= r.value && r.value + |p| <= |s|
  {
    if caseless then IndexFromCaseless(s, p, i) else IndexFrom(s, p, i)
  }

  /** The first match of `pat` at offset `i` of `s`, following the regular expression
      engine's order of trying alternatives. */
  function MatchAt(s: string, i: nat, pat: Pattern): (r: Option<Span>)
    requires i <= |s|
    ensures r.Some? ==> InBounds(r.value, i, |s|) && Opens(pat, s[i])
  {
    match pat
    case Fence(tags, caseless, marker, close) => MatchFence(s, i, tags, 0, caseless, marker, close)
    case FileBlock(languages) => MatchFileBlock(s, i, languages, 0)
    case CreateTable => MatchCreateTable(s, i)
    case PlanObject => MatchPlanObject(s, i)
    case RouteObject => MatchRouteObject(s, i)
    case OuterBraces => MatchOuterBraces(s, i)
  }

  /** Tags are tried in order from `tags[ti]`; a tag whose remainder fails gives way to the
      next one. */
  function MatchFence(s: string, i: nat, tags: seq<string>, ti: nat, caseless: bool, marker: string, close: string): (r: Option<Span>)
    requires i <= |s| && ti <= |tags|
    ensures r.Some? ==> InBounds(r.value, i, |s|) && s[i] == '`'
    decreases |tags| - ti
  {
    if ti == |tags| then None
    else
      var tag := Ticks + tags[ti];
      var first := if TagAt(s, tag, i, caseless) then AfterTag(s, i + |tag|, caseless, marker, close) else None;
      if first.Some? then
        assert Lower(s[i + 0]) == Lower(tag[0]);
        first
      else MatchFence(s, i, tags, ti + 1, caseless, marker, close)
  }

  /** `\s*\n` after the tag, which ends at offset `t`: the greedy whitespace run gives
      characters back until the next one is a newline, so the group may start after any
      newline of that run, the last one first. */
  function AfterTag(s: string, t: nat, caseless: bool, marker: string, close: string): (r: Option<Span>)
    requires t <= |s|
    ensures r.Some? ==> InBounds(r.value, t, |s|) && t < r.value.g1 <= SpacesFrom(s, t)
  {
    Candidates(s, t, SpacesFrom(s, t), caseless, marker, close)
  }

  /** Tries the group starts `j, j - 1, ..., t + 1` that follow a newline. */
  function Candidates(s: string, t: nat, j: nat, caseless: bool, marker: string, close: string): (r: Option<Span>)
    requires t <= j <= |s|
    ensures r.Some? ==> InBounds(r.value, t, |s|) && t < r.value.g1 <= j && s[r.value.g1 - 1] == '\n'
    ensures r.Some? ==> r.value.e1 + |close| == r.value.end && At(s, close, r.value.e1)
    decreases j - t
  {
    if j == t then None
    else
      var here := if s[j - 1] == '\n' then LazyBody(s, j, caseless, marker, close) else None;
      if here.Some? then here else Candidates(s, t, j - 1, caseless, marker, close)
  }

  /** Where `.*?MARKER` from offset `g` ends: just after the first marker, or at `g`
      when there is no marker. */
  function MarkerEnd(s: string, g: nat, caseless: bool, marker: string): (r: Option<nat>)
    requires g <= |s|
    ensures r.Some? ==> g <= r.value <= |s|
    ensures marker == "" ==> r.Some? && r.value == g
  {
    if marker == "" then Some(g)
    else
      match FindFrom(s, marker, g, caseless)
      case Some(p) => Some(p + |marker|)
      case None => None
  }

  /** `(.*?MARKER.*?)CLOSE` from offset `g`: the first marker, then the first closing text
      after it (a later marker could only see fewer closing texts). */
  function LazyBody(s: string, g: nat, caseless: bool, marker: string, close: string): (r: Option<Span>)
    requires g <= |s|
    ensures r.Some? ==> r.value.g1 == g <= r.value.e1 && r.value.e1 + |close| == r.value.end <= |s|
    ensures r.Some? ==> r.value.g2 == g == r.value.e2 && At(s, close, r.value.e1)
  {
    match MarkerEnd(s, g, caseless, marker)
    case None => None
    case Some(m) =>
      match IndexFrom(s, close, m)
      case None => None
      case Some(q) => Some(Span(g, q, g, g, q + |close|))
  }

  /** One language after another from `languages[li]`; a language whose remainder fails
      gives way to the next. */
  function MatchFileBlock(s: string, i: nat, languages: seq<string>, li: nat): (r: Option<Span>)
    requires i <= |s| && li <= |languages|
    ensures r.Some? ==> InBounds(r.value, i, |s|) && s[i] == '`'
    decreases |languages| - li
  {
    if li == |languages| then None
    else
      var tag := Ticks + languages[li] + ":";
      var first := if At(s, tag, i) then PathAndBody(s, i + |tag|) else None;
      if first.Some? then
        assert s[i + 0] == tag[0];
        first
      else MatchFileBlock(s, i, languages, li + 1)
  }

  /** `([^\n]+)\n(.*?)` and three backticks from offset `t`: a non-empty path up to the
      first newline, then a body up to the first three backticks. */
  function PathAndBody(s: string, t: nat): (r: Option<Span>)
    requires t <= |s|
    ensures r.Some? ==> t == r.value.g1 < r.value.e1 && r.value.e1 + 1 == r.value.g2 <= r.value.e2
    ensures r.Some? ==> r.value.e2 + 3 == r.value.end <= |s|
    ensures r.Some? ==> (forall k :: r.value.g1 <= k < r.value.e1 ==> s[k] != '\n') && s[r.value.e1] == '\n'
    ensures r.Some? ==> At(s, Ticks, r.value.e2) && forall k :: r.value.g2 <= k < r.value.e2 ==> !At(s, Ticks, k)
  {
    match IndexFrom(s, "\n", t)
    case None => None
    case Some(n) =>
      if n == t then None
      else
        assert forall k :: t <= k < n ==> s[k] != '\n' by {
          forall k | t <= k < n ensures s[k] != '\n' { AtChar(s, '\n', k); }
        }
        AtChar(s, '\n', n);
        match IndexFrom(s, Ticks, n + 1)
        case None => None
        case Some(q) => Some(Span(t, n, n + 1, q, q + 3))
  }

  const CreateTableWords := "CREATE TABLE"

  /** `CREATE TABLE` in any case, then at least one character other than `;`, up to and
      including the first `;` or, when there is none, to the end of the text. */
  function MatchCreateTable(s: string, i: nat): (r: Option<Span>)
    requires i <= |s|
    ensures r.Some? ==> InBounds(r.value, i, |s|) && (s[i] == 'C' || s[i] == 'c')
    ensures r.Some? ==> r.value.g1 == i && r.value.e1 == r.value.end && i + 12 < r.value.end
    ensures r.Some? ==> s[r.value.end - 1] == ';' || (r.value.end == |s| && s[|s| - 1] != ';')
    ensures r.Some? ==> forall k :: i + 12 <= k < r.value.end - 1 ==> s[k] != ';'
  {
    if !AtCaseless(s, CreateTableWords, i) then None
    else
      assert Lower(s[i + 0]) == Lower(CreateTableWords[0]);
      var b := i + 12;
      match IndexFrom(s, ";", b)
      case Some(k) =>
        if k == b then None
        else
          AtChar(s, ';', k);
          assert forall j :: b <= j < k ==> s[j] != ';' by {
            forall j | b <= j < k ensures s[j] != ';' { AtChar(s, ';', j); }
          }
          Some(Span(i, k + 1, i, i, k + 1))
      case None =>
        if b == |s| then None
        else
          assert forall j :: b <= j < |s| ==> s[j] != ';' by {
            forall j | b <= j < |s| ensures s[j] != ';' { AtChar(s, ';', j); }
          }
          Some(Span(i, |s|, i, i, |s|))
  }

  const PlanKey := "\"api_route_plan\""
  const BaseUrlKey := "\"base_url\""
  const RoutesKey := "\"routes\""
  const Braces := {'{', '}'}

  /** `{`, whitespace, the quoted key `api_route_plan`, then up to the first `}`. */
  function MatchPlanObject(s: string, i: nat): (r: Option<Span>)
    requires i <= |s|
    ensures r.Some? ==> InBounds(r.value, i, |s|) && s[i] == '{'
    ensures r.Some? ==> r.value.g1 == i && r.value.e1 == r.value.end && s[r.value.end - 1] == '}'
    ensures r.Some? ==> At(s, PlanKey, SpacesFrom(s, i + 1))
  {
    if i == |s| || s[i] != '{' then None
    else
      var k := SpacesFrom(s, i + 1);
      if !At(s, PlanKey, k) then None
      else
        match IndexFrom(s, "}", k + |PlanKey|)
        case None => None
        case Some(q) =>
          AtChar(s, '}', q);
          Some(Span(i, q + 1, i, i, q + 1))
  }

  /** `key` occurs entirely within offsets `lo..hi`: the first occurrence from `lo` on
      ends by `hi`. */
  predicate KeyWithin(s: string, key: string, lo: nat, hi: nat)
    requires lo <= hi <= |s|
  {
    match IndexFrom(s, key, lo)
    case Some(k) => k + |key| <= hi
    case None => false
  }

  /** `KeyWithin` holds exactly when some occurrence of `key` lies between the two offsets. */
  lemma KeyWithinIff(s: string, key: string, lo: nat, hi: nat)
    requires lo <= hi <= |s|
    ensures KeyWithin(s, key, lo, hi) <==> exists k :: lo <= k && k + |key| <= hi && At(s, key, k)
  {
    if !KeyWithin(s, key, lo, hi) {
      forall k | lo <= k && k + |key| <= hi ensures !At(s, key, k) {
        match IndexFrom(s, key, lo)
        case None =>
        case Some(q) =>
      }
    }
  }

  /** `{`, then characters other than braces among which `"base_url"` or `"routes"`
      occurs, then `}`: the region up to the first brace after the opening one. */
  function MatchRouteObject(s: string, i: nat): (r: Option<Span>)
    requires i <= |s|
    ensures r.Some? ==> InBounds(r.value, i, |s|) && s[i] == '{'
    ensures r.Some? ==> r.value.g1 == i && r.value.e1 == r.value.end && s[r.value.end - 1] == '}'
    ensures r.Some? ==> forall k :: i < k < r.value.end - 1 ==> s[k] !in Braces
    ensures r.Some? ==> KeyWithin(s, BaseUrlKey, i + 1, r.value.end - 1) || KeyWithin(s, RoutesKey, i + 1, r.value.end - 1)
  {
    if i == |s| || s[i] != '{' then None
    else
      match CharFrom(s, Braces, i + 1)
      case None => None
      case Some(b) =>
        if s[b] == '}' && (KeyWithin(s, BaseUrlKey, i + 1, b) || KeyWithin(s, RoutesKey, i + 1, b)) then
          Some(Span(i, b + 1, i, i, b + 1))
        else None
  }

  /** `{` up to the last `}` after it. */
  function MatchOuterBraces(s: string, i: nat): (r: Option<Span>)
    requires i <= |s|
    ensures r.Some? ==> InBounds(r.value, i, |s|) && s[i] == '{' && s[r.value.end - 1] == '}'
    ensures r.Some? ==> r.value.g1 == i && r.value.e1 == r.value.end
    ensures r.Some? ==> forall k :: r.value.end <= k < |s| ==> s[k] != '}'
    ensures r.None? && i < |s| && s[i] == '{' ==> forall k :: i < k < |s| ==> s[k] != '}'
  {
    if i == |s| || s[i] != '{' then None
    else
      match LastIndexOf(s, '}')
      case None => None
      case Some(q) => if q > i then Some(Span(i, q + 1, i, i, q + 1)) else None
  }

  /** `re.search` from offset `i`: the leftmost offset at which the pattern matches. */
  function Search(s: string, pat: Pattern, i: nat): (r: Option<nat>)
    requires i <= |s|
    ensures r.Some? ==> i <= r.value < |s| && MatchAt(s, r.value, pat).Some?
    ensures r.Some? ==> forall k :: i <= k < r.value ==> MatchAt(s, k, pat).None?
    ensures r.None? ==> forall k :: i <= k <= |s| ==> MatchAt(s, k, pat).None?
    decreases |s| - i
  {
    if MatchAt(s, i, pat).Some? then Some(i)
    else if i == |s| then None
    else Search(s, pat, i + 1)
  }

  /** The span of the match a search from `i` finds. */
  function SearchSpan(s: string, pat: Pattern, i: nat): (sp: Span)
    requires i <= |s| && Search(s, pat, i).Some?
    ensures InBounds(sp, i, |s|)
  {
    MatchAt(s, Search(s, pat, i).value, pat).value
  }

  /** `re.findall` from offset `i`: the matches from left to right, each search resuming
      where the previous match ended. */
  function FindAll(s: string, pat: Pattern, i: nat): (spans: seq<Span>)
    requires i <= |s|
    ensures |spans| <= |s| - i
    ensures spans == [] <==> Search(s, pat, i).None?
    ensures forall j :: 0 <= j < |spans| ==> InBounds(spans[j], i, |s|)
    ensures spans != [] ==> spans[0] == SearchSpan(s, pat, i)
    decreases |s| - i
  {
    match Search(s, pat, i)
    case None => []
    case Some(_) =>
      var sp := SearchSpan(s, pat, i);
      [sp] + FindAll(s, pat, sp.end)
  }

  /** The matches `findall` reports are the successive left-most ones: each next match is
      the first match from where the one before it ended. */
  lemma {:induction false} FindAllNext(s: string, pat: Pattern, i: nat, j: nat)
    requires i <= |s| && j + 1 < |FindAll(s, pat, i)|
    ensures var spans := FindAll(s, pat, i);
      Search(s, pat, spans[j].end).Some? && spans[j + 1] == SearchSpan(s, pat, spans[j].end)
    decreases j
  {
    var sp := SearchSpan(s, pat, i);
    assert FindAll(s, pat, i) == [sp] + FindAll(s, pat, sp.end);
    if j > 0 {
      FindAllNext(s, pat, sp.end, j - 1);
    }
  }

  /** After the last match `findall` reports, nothing matches. */
  lemma {:induction false} FindAllLast(s: string, pat: Pattern, i: nat)
    requires i <= |s| && FindAll(s, pat, i) != []
    ensures var spans := FindAll(s, pat, i); Search(s, pat, spans[|spans| - 1].end).None?
    decreases |s| - i
  {
    var sp := SearchSpan(s, pat, i);
    var rest := FindAll(s, pat, sp.end);
    assert FindAll(s, pat, i) == [sp] + rest;
    if rest != [] {
      FindAllLast(s, pat, sp.end);
    }
  }

  /** The text of the first group of a match. */
  function Group(s: string, sp: Span): string
    requires InBounds(sp, 0, |s|)
  {
    s[sp.g1..sp.e1]
  }

  /** The text of the second group of a match. */
  function Group2(s: string, sp: Span): string
    requires InBounds(sp, 0, |s|)
  {
    s[sp.g2..sp.e2]
  }

  /** The first groups of a list of matches (what `findall` returns for a one-group pattern). */
  function Groups(s: string, spans: seq<Span>): (r: seq<string>)
    requires forall j :: 0 <= j < |spans| ==> InBounds(spans[j], 0, |s|)
    ensures |r| == |spans| && forall j :: 0 <= j < |spans| ==> r[j] == Group(s, spans[j])
  {
    seq(|spans|, j requires 0 <= j < |spans| => Group(s, spans[j]))
  }

  /** `re.sub(pattern, '', s[i:])`: every match from offset `i` on removed. The text up to
      the first match is kept, the match itself is cut out, and the substitution goes on
      from where the match ended. */
  function Sub(s: string, pat: Pattern, i: nat): (r: string)
    requires i <= |s|
    ensures |r| <= |s| - i
    ensures Search(s, pat, i).None? ==> r == s[i..]
    ensures Search(s, pat, i).Some? ==>
      r == s[i..Search(s, pat, i).value] + Sub(s, pat, SearchSpan(s, pat, i).end)
    decreases |s| - i
  {
    match Search(s, pat, i)
    case None => s[i..]
    case Some(k) => s[i..k] + Sub(s, pat, SearchSpan(s, pat, i).end)
  }
}
