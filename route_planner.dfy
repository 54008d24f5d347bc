/** The route planner's recovery of a route plan from the language model's answer: four
    text strategies tried in turn, each handing candidate texts to the JSON decoder and
    keeping a decoded document by what it holds, and the empty plan when all fail. */
module RoutePlanner {
  import opened Values
  import opened Strings
  import opened Scanners
  import opened ScanFacts

  const AgentName := "api_route_planner"

  /** The keys a route plan document is recognised by. */
  const PlanField := "api_route_plan"
  const BaseUrlField := "base_url"
  const RoutesField := "routes"

  /** The JSON decoder (`json.loads`): the document a text decodes to, or `None` where
      it raises `JSONDecodeError`. */
  type Parser = string -> Option<Json>

  /** ``` `json\s*\n(.*?)\n` ``` and three backticks. */
  const JsonFence := Fence(["json"], false, "", "\n" + Ticks)

  /** Python's `key in doc`: a key of a dict, an element of a list, a substring of a str;
      any other value raises `TypeError`. */
  function Member(doc: Json, key: string): (r: Result<bool, string>)
    ensures r.Err? <==> !(doc.JObj? || doc.JArr? || doc.JStr?)
    ensures doc.JObj? ==> r == Ok(key in doc.fields)
    ensures doc.JArr? ==> r == Ok(JStr(key) in doc.items)
    ensures doc.JStr? ==> r == Ok(Contains(doc.s, key))
  {
    match doc
    case JObj(m) => Ok(key in m)
    case JArr(xs) => Ok(JStr(key) in xs)
    case JStr(s) => Ok(Contains(s, key))
    case _ => Err("argument of type '" + TypeName(doc) + "' is not iterable")
  }

  /** Python's `doc[key]` with a string key (as Python 3.12 words its errors). */
  function Subscript(doc: Json, key: string): (r: Result<Json, string>)
    ensures r.Ok? <==> doc.JObj? && key in doc.fields
    ensures r.Ok? ==> r.value == doc.fields[key]
  {
    match doc
    case JObj(m) => if key in m then Ok(m[key]) else Err("'" + key + "'")
    case JArr(_) => Err("list indices must be integers or slices, not str")
    case JStr(_) => Err("string indices must be integers, not 'str'")
    case _ => Err("'" + TypeName(doc) + "' object is not subscriptable")
  }

  /** `a in doc or b in doc`, the second test made only when the first is false. */
  function EitherKey(doc: Json, a: string, b: string): (r: Result<bool, string>)
    ensures r.Err? <==> Member(doc, a).Err?
    ensures r == Ok(true) <==> Member(doc, a) == Ok(true) || Member(doc, b) == Ok(true)
  {
    match Member(doc, a)
    case Err(e) => Err(e)
    case Ok(true) => Ok(true)
    case Ok(false) => Member(doc, b)
  }

  /** The four strategies, in the order they are tried: fenced `json` blocks, inline
      objects opening with the plan key, brace-free objects naming a route key, and the
      tail of the text from the last line that looks like the start of a plan. */
  datatype Strategy = Fenced | Inline | BraceFree | Trailing

  /** What a strategy makes of one candidate: a document it returns, a move to the next
      candidate, or an error. */
  type Verdict = Result<Option<Json>, string>

  /** What a strategy makes of one decoded document: `Some` of the plan it returns,
      `None` to move on, or the error raised by testing the document. */
  function Judge(st: Strategy, doc: Json): Verdict
  {
    if st == BraceFree then
      match EitherKey(doc, RoutesField, BaseUrlField)
      case Err(e) => Err(e)
      case Ok(found) => Ok(if found then Some(doc) else None)
    else
      match Member(doc, PlanField)
      case Err(e) => Err(e)
      case Ok(true) =>
        (match Subscript(doc, PlanField)
         case Err(e) => Err(e)
         case Ok(v) => Ok(Some(v)))
      case Ok(false) =>
        if st == Inline then Ok(None)
        else
          var keys := if st == Fenced then EitherKey(doc, BaseUrlField, RoutesField) else EitherKey(doc, RoutesField, BaseUrlField);
          match keys
          case Err(e) => Err(e)
          case Ok(found) => Ok(if found then Some(doc) else None)
  }

  /** The plan key wins wherever it is looked for, the inline strategy returns nothing
      but its value, the brace-free strategy returns the whole document, and testing
      raises exactly for documents that are not containers or that hold the plan key
      without being a dict. */
  lemma JudgeIs(st: Strategy, doc: Json)
    ensures Judge(st, doc).Err? <==> Member(doc, PlanField).Err? || (st != BraceFree && !doc.JObj? && Member(doc, PlanField) == Ok(true))
    ensures st != BraceFree && doc.JObj? && PlanField in doc.fields ==> Judge(st, doc) == Ok(Some(doc.fields[PlanField]))
    ensures st == Inline && Judge(st, doc).Ok? && Judge(st, doc).value.Some? ==> doc.JObj? && PlanField in doc.fields && Judge(st, doc).value.value == doc.fields[PlanField]
    ensures st == BraceFree ==> (Judge(st, doc) == Ok(Some(doc)) <==> Member(doc, RoutesField) == Ok(true) || Member(doc, BaseUrlField) == Ok(true))
    ensures st == BraceFree && Judge(st, doc).Ok? ==> Judge(st, doc).value.None? || Judge(st, doc).value.value == doc
    ensures (st == Fenced || st == Trailing) && doc.JObj? && PlanField !in doc.fields ==>
      (Judge(st, doc) == Ok(Some(doc)) <==> BaseUrlField in doc.fields || RoutesField in doc.fields)
  {
  }

  /** One candidate text tried by a strategy: a text that does not decode moves on. */
  function Decoded(parse: Parser, text: string, st: Strategy): Verdict
  {
    match parse(text)
    case None => Ok(None)
    case Some(doc) => Judge(st, doc)
  }

  /** The verdict on each candidate, stripped before decoding. */
  function Verdicts(cs: seq<string>, parse: Parser, st: Strategy): seq<Verdict>
  {
    seq(|cs|, k requires 0 <= k < |cs| => Decoded(parse, Strip(cs[k]), st))
  }

  /** The first verdict from `vs[i]` on that does not move on. */
  function FirstVerdict(vs: seq<Verdict>, i: nat): Verdict
    requires i <= |vs|
    decreases |vs| - i
  {
    if i == |vs| then Ok(None)
    else if vs[i] == Ok(None) then FirstVerdict(vs, i + 1)
    else vs[i]
  }

  /** A strategy's loop over its candidates, in order. */
  function FirstAccepted(cs: seq<string>, parse: Parser, st: Strategy): Verdict
  {
    FirstVerdict(Verdicts(cs, parse, st), 0)
  }

  /** The loop moves on past all candidates exactly when each verdict moves on; otherwise
      its outcome is the verdict on a candidate all of whose predecessors moved on. */
  lemma {:induction false} FirstVerdictIs(vs: seq<Verdict>, i: nat)
    requires i <= |vs|
    ensures FirstVerdict(vs, i) == Ok(None) <==> forall j :: i <= j < |vs| ==> vs[j] == Ok(None)
    ensures FirstVerdict(vs, i) != Ok(None) ==>
      exists j :: i <= j < |vs| && vs[j] == FirstVerdict(vs, i) && forall k :: i <= k < j ==> vs[k] == Ok(None)
    decreases |vs| - i
  {
    if i < |vs| && vs[i] == Ok(None) {
      FirstVerdictIs(vs, i + 1);
    }
  }

  /** Leaving out a verdict that moves on does not change the outcome. */
  lemma SkipPass(vs: seq<Verdict>, j: nat)
    requires j < |vs| && vs[j] == Ok(None)
    ensures FirstVerdict(vs[..j] + vs[j + 1..], 0) == FirstVerdict(vs, 0)
  {
    var rest := vs[..j] + vs[j + 1..];
    forall k | j <= k < |rest| ensures rest[k] == vs[k + 1] {
      assert rest[k] == vs[j + 1..][k - j];
    }
    SkipBefore(vs, rest, j, 0);
  }

  /** Before the left-out verdict the two lists agree. */
  lemma {:induction false} SkipBefore(vs: seq<Verdict>, rest: seq<Verdict>, j: nat, i: nat)
    requires i <= j < |vs| && |rest| == |vs| - 1 && vs[j] == Ok(None)
    requires forall k :: 0 <= k < j ==> rest[k] == vs[k]
    requires forall k :: j <= k < |rest| ==> rest[k] == vs[k + 1]
    ensures FirstVerdict(rest, i) == FirstVerdict(vs, i)
    decreases j - i
  {
    if i < j {
      SkipBefore(vs, rest, j, i + 1);
    } else {
      SkipAfter(vs, rest, j);
    }
  }

  /** From the left-out verdict on, the shorter list runs one behind. */
  lemma {:induction false} SkipAfter(vs: seq<Verdict>, rest: seq<Verdict>, k: nat)
    requires k <= |rest| && |rest| == |vs| - 1
    requires forall m :: k <= m < |rest| ==> rest[m] == vs[m + 1]
    ensures FirstVerdict(rest, k) == FirstVerdict(vs, k + 1)
    decreases |rest| - k
  {
    if k < |rest| {
      SkipAfter(vs, rest, k + 1);
    }
  }

  /** A line the trailing strategy may start from. */
  predicate Marked(line: string)
  {
    Contains(line, Ticks + "json") || (Contains(line, "{") && Contains(line, PlanKey))
  }

  /** The last marked line among `lines[..n]`. */
  function LastMarked(lines: seq<string>, n: nat): (r: Option<nat>)
    requires n <= |lines|
    ensures r.Some? ==> r.value < n && Marked(lines[r.value]) && forall j :: r.value < j < n ==> !Marked(lines[j])
    ensures r.None? ==> forall j :: 0 <= j < n ==> !Marked(lines[j])
  {
    if n == 0 then None
    else if Marked(lines[n - 1]) then Some(n - 1)
    else LastMarked(lines, n - 1)
  }

  /** `re.search(r'\{[\s\S]*\}', section)`: from the first `{` to the last `}`, when
      that `}` comes after the `{`. */
  function BraceSpan(section: string): (r: Option<string>)
    ensures r.Some? <==>
      CharFrom(section, {'{'}, 0).Some? && LastIndexOf(section, '}').Some? && CharFrom(section, {'{'}, 0).value < LastIndexOf(section, '}').value
    ensures r.Some? ==> r.value == section[CharFrom(section, {'{'}, 0).value..LastIndexOf(section, '}').value + 1]
  {
    match Search(section, OuterBraces, 0)
    case None =>
      BraceSpanAbsent(section);
      None
    case Some(i) =>
      BraceSpanFirst(section, i);
      Some(Group(section, SearchSpan(section, OuterBraces, 0)))
  }

  /** No match of the brace pattern: no `{` has a `}` after it. */
  lemma BraceSpanAbsent(section: string)
    requires Search(section, OuterBraces, 0).None?
    ensures !(CharFrom(section, {'{'}, 0).Some? && LastIndexOf(section, '}').Some?
      && CharFrom(section, {'{'}, 0).value < LastIndexOf(section, '}').value)
  {
    var p := CharFrom(section, {'{'}, 0);
    if p.Some? {
      assert MatchAt(section, p.value, OuterBraces) == MatchOuterBraces(section, p.value);
    }
  }

  /** The brace pattern matches first at the first `{` and runs to the last `}`. */
  lemma BraceSpanFirst(section: string, i: nat)
    requires Search(section, OuterBraces, 0) == Some(i)
    ensures CharFrom(section, {'{'}, 0).Some? && LastIndexOf(section, '}').Some?
    ensures CharFrom(section, {'{'}, 0).value == i < LastIndexOf(section, '}').value
    ensures SearchSpan(section, OuterBraces, 0) == Span(i, LastIndexOf(section, '}').value + 1, i, i, LastIndexOf(section, '}').value + 1)
  {
    assert MatchAt(section, i, OuterBraces).Some?;
    var q := LastIndexOf(section, '}').value;
    var p := CharFrom(section, {'{'}, 0);
    assert section[i] in {'{'};
    assert MatchAt(section, p.value, OuterBraces) == MatchOuterBraces(section, p.value);
  }

  /** The text the trailing strategy decodes: the brace span of the lines from the last
      marked one on, joined back. */
  function TrailingCandidate(output: string): (r: Option<string>)
  {
    var lines := Split(output, '\n');
    match LastMarked(lines, |lines|)
    case None => None
    case Some(k) => BraceSpan(Join("\n", lines[k..]))
  }

  /** The texts each of the first three strategies tries, in order of appearance. */
  function FencedBlocks(output: string): seq<string>
  {
    Groups(output, FindAll(output, JsonFence, 0))
  }

  function InlineObjects(output: string): seq<string>
  {
    Groups(output, FindAll(output, PlanObject, 0))
  }

  function BraceFreeObjects(output: string): seq<string>
  {
    Groups(output, FindAll(output, RouteObject, 0))
  }

  /** The outcome of one strategy, turned into the cascade's next step. */
  function Then(step: Result<Option<Json>, string>, rest: Result<Json, string>): (r: Result<Json, string>)
    ensures step.Err? ==> r == Err(step.error)
    ensures step.Ok? && step.value.Some? ==> r == Ok(step.value.value)
    ensures step == Ok(None) ==> r == rest
  {
    match step
    case Err(e) => Err(e)
    case Ok(Some(v)) => Ok(v)
    case Ok(None) => rest
  }

  /** The trailing strategy, then the empty plan. */
  function TrailingPlan(output: string, parse: Parser): Result<Json, string>
  {
    match TrailingCandidate(output)
    case None => Ok(JObj(map[]))
    case Some(text) => Then(Decoded(parse, text, Trailing), Ok(JObj(map[])))
  }

  /** The route plan extracted from the model's answer (`_extract_api_route_plan`), or the
      error raised while testing a decoded document. */
  function RoutePlanOf(output: string, parse: Parser): Result<Json, string>
  {
    Then(FirstAccepted(FencedBlocks(output), parse, Fenced),
      Then(FirstAccepted(InlineObjects(output), parse, Inline),
        Then(FirstAccepted(BraceFreeObjects(output), parse, BraceFree),
          TrailingPlan(output, parse))))
  }

  /** One candidate tried: decoded, and the document judged when it decodes. */
  method TryCandidate(text: string, parse: Parser, st: Strategy) returns (v: Verdict)
    ensures v == Decoded(parse, text, st)
  {
    var doc := parse(text);
    if doc.None? {
      return Ok(None);
    }
    v := Judge(st, doc.value);
  }

  /** One strategy's loop over its candidates, returning at the first that is accepted
      or raises. */
  method TryCandidates(cs: seq<string>, parse: Parser, st: Strategy) returns (r: Result<Option<Json>, string>)
    ensures r == FirstAccepted(cs, parse, st)
  {
    ghost var vs := Verdicts(cs, parse, st);
    var i := 0;
    while i < |cs|
      invariant 0 <= i <= |cs|
      invariant FirstVerdict(vs, i) == FirstVerdict(vs, 0)
    {
      var verdict := TryCandidate(Strip(cs[i]), parse, st);
      CandidateStep(cs, parse, st, i, verdict);
      if verdict != Ok(None) {
        return verdict;
      }
      i := i + 1;
    }
    return Ok(None);
  }

  /** The loop's verdict on candidate `i` is the one its outcome is built from. */
  lemma CandidateStep(cs: seq<string>, parse: Parser, st: Strategy, i: nat, v: Verdict)
    requires i < |cs| && v == Decoded(parse, Strip(cs[i]), st)
    ensures |Verdicts(cs, parse, st)| == |cs| && Verdicts(cs, parse, st)[i] == v
  {
  }

  /** The backward scan for the line the trailing strategy starts from; -1 when there
      is none. */
  method FindJsonStart(lines: seq<string>) returns (start: int)
    ensures -1 <= start < |lines|
    ensures start >= 0 ==> Marked(lines[start]) && forall j :: start < j < |lines| ==> !Marked(lines[j])
    ensures start == -1 ==> forall j :: 0 <= j < |lines| ==> !Marked(lines[j])
    ensures start == (if LastMarked(lines, |lines|).Some? then LastMarked(lines, |lines|).value else -1)
  {
    start := -1;
    var i := |lines| - 1;
    while i >= 0
      invariant -1 <= i < |lines|
      invariant forall j :: i < j < |lines| ==> !Marked(lines[j])
      invariant LastMarked(lines, i + 1) == LastMarked(lines, |lines|)
      decreases i + 1
    {
      if Marked(lines[i]) {
        start := i;
        break;
      }
      i := i - 1;
    }
  }

  /** `_extract_api_route_plan`: the four strategies with their loops, then the empty plan. */
  method ExtractApiRoutePlan(output: string, parse: Parser) returns (r: Result<Json, string>)
    ensures r == RoutePlanOf(output, parse)
  {
    var fenced := TryCandidates(FencedBlocks(output), parse, Fenced);
    if fenced != Ok(None) {
      return Then(fenced, Ok(JObj(map[])));
    }
    var inline := TryCandidates(InlineObjects(output), parse, Inline);
    if inline != Ok(None) {
      return Then(inline, Ok(JObj(map[])));
    }
    var braceFree := TryCandidates(BraceFreeObjects(output), parse, BraceFree);
    if braceFree != Ok(None) {
      return Then(braceFree, Ok(JObj(map[])));
    }
    var lines := Split(output, '\n');
    var start := FindJsonStart(lines);
    if start >= 0 {
      var section := Join("\n", lines[start..]);
      var found := BraceSpan(section);
      if found.Some? {
        var doc := parse(found.value);
        if doc.Some? {
          var verdict := Judge(Trailing, doc.value);
          if verdict != Ok(None) {
            return Then(verdict, Ok(JObj(map[])));
          }
        }
      }
    }
    return Ok(JObj(map[]));
  }

  /** A fenced `json` block after text without backticks whose body decodes to an object
      with the plan key: that key's value is the plan, whatever follows the block. */
  lemma PlanBlockUnwrapped(pre: string, body: string, post: string, parse: Parser)
    requires '`' !in pre && GoodBody(body, false, "")
    requires parse(Strip(body)).Some? && parse(Strip(body)).value.JObj? && PlanField in parse(Strip(body)).value.fields
    ensures RoutePlanOf(pre + Block("json", body, "\n" + Ticks) + post, parse) == Ok(parse(Strip(body)).value.fields[PlanField])
  {
    var s := pre + Block("json", body, "\n" + Ticks) + post;
    var v := parse(Strip(body)).value.fields[PlanField];
    JudgeIs(Fenced, parse(Strip(body)).value);
    FirstFencedBlock(pre, body, post);
    FirstCandidateAccepted(FencedBlocks(s), parse, Fenced, v);
  }

  /** The first fenced `json` block of such a text is the block's body, up to spaces. */
  lemma FirstFencedBlock(pre: string, body: string, post: string)
    requires '`' !in pre && GoodBody(body, false, "")
    ensures var s := pre + Block("json", body, "\n" + Ticks) + post;
      FencedBlocks(s) != [] && Strip(FencedBlocks(s)[0]) == Strip(body)
  {
    var s := pre + Block("json", body, "\n" + Ticks) + post;
    FenceSearch(pre, ["json"], 0, false, "", "\n" + Ticks, body, post);
    assert FindAll(s, JsonFence, 0)[0] == SearchSpan(s, JsonFence, 0);
  }

  /** A first candidate that is accepted with `v` ends the loop with `v`. */
  lemma FirstCandidateAccepted(cs: seq<string>, parse: Parser, st: Strategy, v: Json)
    requires cs != [] && Decoded(parse, Strip(cs[0]), st) == Ok(Some(v))
    ensures FirstAccepted(cs, parse, st) == Ok(Some(v))
  {
    assert Verdicts(cs, parse, st)[0] == Ok(Some(v));
  }

  /** The example plan document: its inner plan is what is extracted. */
  lemma ExamplePlanUnwrapped(pre: string, body: string, post: string, parse: Parser)
    requires '`' !in pre && GoodBody(body, false, "")
    requires parse(Strip(body)) == Some(JObj(map[PlanField := JObj(map[BaseUrlField := JStr("X"), RoutesField := JArr([])])]))
    ensures RoutePlanOf(pre + Block("json", body, "\n" + Ticks) + post, parse) == Ok(JObj(map[BaseUrlField := JStr("X"), RoutesField := JArr([])]))
  {
    PlanBlockUnwrapped(pre, body, post, parse);
  }

  /** A line with neither a brace nor a backtick is not marked. */
  lemma UnmarkedLine(line: string)
    requires '{' !in line && '`' !in line
    ensures !Marked(line)
  {
    forall k | 0 <= k <= |line| ensures !At(line, Ticks + "json", k) && !At(line, "{", k) {
      assert (Ticks + "json")[0] == '`' && "{"[0] == '{';
      if k < |line| {
        assert line[k + 0] in line;
      }
    }
  }

  /** Text with neither braces nor backticks yields the empty plan, whatever the decoder
      does: no strategy finds a candidate. */
  lemma NoBracesEmptyPlan(output: string, parse: Parser)
    requires '{' !in output && '`' !in output
    ensures RoutePlanOf(output, parse) == Ok(JObj(map[]))
  {
    SearchNoOpener(output, JsonFence, 0);
    SearchNoOpener(output, PlanObject, 0);
    SearchNoOpener(output, RouteObject, 0);
    var lines := Split(output, '\n');
    forall j | 0 <= j < |lines| ensures !Marked(lines[j]) {
      if '{' in lines[j] {
        SplitChars(output, '\n', j, '{');
      }
      if '`' in lines[j] {
        SplitChars(output, '\n', j, '`');
      }
      UnmarkedLine(lines[j]);
    }
  }

  /** A document that is an object is judged without raising. */
  lemma ObjectJudged(parse: Parser, text: string, st: Strategy)
    requires parse(text).None? || parse(text).value.JObj?
    ensures Decoded(parse, text, st).Ok?
  {
    if parse(text).Some? {
      JudgeIs(st, parse(text).value);
    }
  }

  /** When the decoder only ever yields objects, a strategy's loop never raises. */
  lemma CandidatesNeverRaise(cs: seq<string>, parse: Parser, st: Strategy)
    requires forall t :: parse(t).None? || parse(t).value.JObj?
    ensures FirstAccepted(cs, parse, st).Ok?
  {
    var vs := Verdicts(cs, parse, st);
    FirstVerdictIs(vs, 0);
    if FirstVerdict(vs, 0) != Ok(None) {
      var j :| 0 <= j < |vs| && vs[j] == FirstVerdict(vs, 0) && forall k :: 0 <= k < j ==> vs[k] == Ok(None);
      ObjectJudged(parse, Strip(cs[j]), st);
      assert vs[j] == Decoded(parse, Strip(cs[j]), st);
    }
  }

  /** When the decoder only ever yields objects (or fails), the extraction never raises:
      only documents that are lists, strings or scalars can make it fail. */
  lemma ObjectsNeverRaise(output: string, parse: Parser)
    requires forall t :: parse(t).None? || parse(t).value.JObj?
    ensures RoutePlanOf(output, parse).Ok?
  {
    CandidatesNeverRaise(FencedBlocks(output), parse, Fenced);
    CandidatesNeverRaise(InlineObjects(output), parse, Inline);
    CandidatesNeverRaise(BraceFreeObjects(output), parse, BraceFree);
    match TrailingCandidate(output)
    case None =>
    case Some(text) => ObjectJudged(parse, text, Trailing);
  }

  /** A candidate that does not decode is skipped: leaving it out changes nothing. */
  lemma SkipUnparseable(cs: seq<string>, j: nat, parse: Parser, st: Strategy)
    requires j < |cs| && parse(Strip(cs[j])).None?
    ensures FirstAccepted(cs[..j] + cs[j + 1..], parse, st) == FirstAccepted(cs, parse, st)
  {
    VerdictsDrop(cs, j, parse, st);
    SkipPass(Verdicts(cs, parse, st), j);
  }

  /** The verdicts on a list with one candidate left out are the verdicts on the list
      with that verdict left out. */
  lemma VerdictsDrop(cs: seq<string>, j: nat, parse: Parser, st: Strategy)
    requires j < |cs|
    ensures Verdicts(cs[..j] + cs[j + 1..], parse, st) == Verdicts(cs, parse, st)[..j] + Verdicts(cs, parse, st)[j + 1..]
  {
    var vs := Verdicts(cs, parse, st);
    var rest := cs[..j] + cs[j + 1..];
    var ws := vs[..j] + vs[j + 1..];
    forall k | 0 <= k < |rest| ensures Verdicts(rest, parse, st)[k] == ws[k] {
      var m := if k < j then k else k + 1;
      DropAt(cs, j, k);
      DropAt(vs, j, k);
      CandidateStep(rest, parse, st, k, Decoded(parse, Strip(cs[m]), st));
      CandidateStep(cs, parse, st, m, Decoded(parse, Strip(cs[m]), st));
    }
    assert |Verdicts(rest, parse, st)| == |ws|;
  }

  /** Element `k` of a list with element `j` left out. */
  lemma DropAt<T>(xs: seq<T>, j: nat, k: nat)
    requires j < |xs| && k < |xs| - 1
    ensures (xs[..j] + xs[j + 1..])[k] == xs[if k < j then k else k + 1]
  {
    if k >= j {
      assert (xs[..j] + xs[j + 1..])[k] == xs[j + 1..][k - j];
    }
  }

  /** The dict `process` builds around an extracted plan, or the error the extraction
      raised. */
  function Reply(plan: Result<Json, string>, output: string): (r: Result<map<string, Json>, string>)
    ensures r.Ok? <==> plan.Ok?
    ensures r.Ok? ==> r.value.Keys == {"api_route_plan", "raw_output", "agent"}
    ensures r.Ok? ==> r.value["api_route_plan"] == plan.value
    ensures r.Ok? ==> r.value["raw_output"] == JStr(output) && r.value["agent"] == JStr(AgentName)
    ensures r.Err? ==> r.error == plan.error
  {
    match plan
    case Err(e) => Err(e)
    case Ok(p) => Ok(map["api_route_plan" := p, "raw_output" := JStr(output), "agent" := JStr(AgentName)])
  }

  /** What the agent's `process` returns for the model's answer `output`. */
  function Process(output: string, parse: Parser): (r: Result<map<string, Json>, string>)
    ensures r.Ok? <==> RoutePlanOf(output, parse).Ok?
    ensures r.Ok? ==> r.value.Keys == {"api_route_plan", "raw_output", "agent"}
    ensures r.Ok? ==> r.value["api_route_plan"] == RoutePlanOf(output, parse).value
    ensures r.Ok? ==> r.value["raw_output"] == JStr(output) && r.value["agent"] == JStr(AgentName)
    ensures r.Err? ==> r.error == RoutePlanOf(output, parse).error
  {
    Reply(RoutePlanOf(output, parse), output)
  }
}
