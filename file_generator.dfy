/** The file generator: the project folder's name, the SQL and code taken out of the
    agents' answers, the frontend files cut out of the frontend answer, and the layout of
    the project written to disk, modelled as a map from paths relative to the project
    folder to file contents. */
module FileGenerator {
  import opened Values
  import opened Strings
  import opened Scanners
  import opened ScanFacts
  import DatabaseAgent
  import CodeGenerator

  // ---------------------------------------------------------------------------
  // The project folder's name
  // ---------------------------------------------------------------------------

  /** `\w` in a pattern over `str`, for ASCII text: letters, digits and the underscore. */
  predicate IsWord(c: char)
  {
    'a' <= c <= 'z' || 'A' <= c <= 'Z' || '0' <= c <= '9' || c == '_'
  }

  /** The characters `[^\w\s-]` leaves in place. */
  predicate Kept(c: char)
  {
    IsWord(c) || IsSpace(c) || c == '-'
  }

  /** The characters runs of `[-\s]+` are made of. */
  predicate IsSep(c: char)
  {
    c == '-' || IsSpace(c)
  }

  /** `re.sub(r'[^\w\s-]', '', s)`: every character that is not a word character,
      whitespace or a hyphen removed. */
  function DropPunctuation(s: string): (r: string)
    ensures |r| <= |s|
    ensures forall i :: 0 <= i < |r| ==> Kept(r[i])
    ensures (forall i :: 0 <= i < |s| ==> Kept(s[i])) ==> r == s
    ensures (forall i :: 0 <= i < |s| ==> !Kept(s[i])) ==> r == []
  {
    if s == [] then []
    else (if Kept(s[0]) then [s[0]] else []) + DropPunctuation(s[1..])
  }

  /** The end of the run of separators that starts at offset `i`. */
  function SepRunEnd(s: string, i: nat): (r: nat)
    requires i <= |s|
    ensures i <= r <= |s| && (r < |s| ==> !IsSep(s[r]))
    ensures forall k :: i <= k < r ==> IsSep(s[k])
    decreases |s| - i
  {
    if i < |s| && IsSep(s[i]) then SepRunEnd(s, i + 1) else i
  }

  /** No two hyphens next to each other. */
  predicate NoDoubleHyphen(s: string)
  {
    forall i :: 0 <= i < |s| - 1 ==> !(s[i] == '-' && s[i + 1] == '-')
  }

  /** `re.sub(r'[-\s]+', '-', s)`: each maximal run of hyphens and whitespace replaced
      by a single hyphen. */
  function Collapse(s: string): (r: string)
    ensures |r| <= |s| && (r == [] <==> s == [])
    ensures s != [] ==> (r[0] == '-' <==> IsSep(s[0]))
    ensures NoDoubleHyphen(r)
    decreases |s|
  {
    if s == [] then []
    else if IsSep(s[0]) then
      var rest := s[SepRunEnd(s, 0)..];
      var r := "-" + Collapse(rest);
      assert forall i :: 1 <= i < |r| ==> r[i] == Collapse(rest)[i - 1];
      assert forall k :: 0 <= k < |rest| ==> rest[k] == s[SepRunEnd(s, 0) + k];
      r
    else
      var r := [s[0]] + Collapse(s[1..]);
      assert forall i :: 1 <= i < |r| ==> r[i] == Collapse(s[1..])[i - 1];
      assert forall k :: 0 <= k < |s| - 1 ==> s[1..][k] == s[k + 1];
      r
  }

  /** A string without whitespace or doubled hyphens is left as it is by `Collapse`. */
  lemma {:induction false} CollapseFixed(s: string)
    requires (forall i :: 0 <= i < |s| ==> !IsSpace(s[i])) && NoDoubleHyphen(s)
    ensures Collapse(s) == s
    decreases |s|
  {
    if s != [] {
      if IsSep(s[0]) {
        assert SepRunEnd(s, 1) == 1;
        CollapseFixed(s[1..]);
      } else {
        CollapseFixed(s[1..]);
      }
    }
  }

  /** A common prefix in front of a concatenation. */
  lemma PrefixJoin(h: string, a: string, b: string, c: string, d: string, m: string)
    requires c == h + a && d == h + m && m == a + b
    ensures d == c + b
  {
  }

  /** Dropping punctuation works character by character: on a concatenation it drops
      from each part, and a single character is kept exactly when it is `Kept`. So the
      result is the kept characters of the input, in their order. */
  lemma {:induction false} DropPunctuationSplits(x: string, y: string)
    ensures DropPunctuation(x + y) == DropPunctuation(x) + DropPunctuation(y)
    ensures |x| == 1 ==> DropPunctuation(x) == (if Kept(x[0]) then x else [])
    decreases |x|
  {
    if x != [] {
      assert (x + y)[0] == x[0] && (x + y)[1..] == x[1..] + y;
      DropPunctuationSplits(x[1..], y);
      PrefixJoin(if Kept(x[0]) then [x[0]] else [], DropPunctuation(x[1..]), DropPunctuation(y),
        DropPunctuation(x), DropPunctuation(x + y), DropPunctuation(x[1..] + y));
    } else {
      assert x + y == y;
    }
    if |x| == 1 {
      assert x[1..] == [];
    }
  }

  /** A run of separators that starts at `i` ends at the same place in `x + y` as in `x`
      when it stops inside `x`, or when `y` does not continue it. */
  lemma {:induction false} SepRunEndPrefix(x: string, y: string, i: nat)
    requires i <= |x|
    requires SepRunEnd(x, i) < |x| || y == [] || !IsSep(y[0])
    ensures SepRunEnd(x + y, i) == SepRunEnd(x, i)
    decreases |x| - i
  {
    if i < |x| && IsSep(x[i]) {
      SepRunEndPrefix(x, y, i + 1);
    } else if i == |x| && y != [] {
      assert (x + y)[i] == y[0];
    }
  }

  /** A non-empty run of hyphens and whitespace collapses to one hyphen. */
  lemma CollapseRun(w: string)
    requires w != [] && forall k :: 0 <= k < |w| ==> IsSep(w[k])
    ensures Collapse(w) == "-"
  {
    assert SepRunEnd(w, 0) == |w|;
  }

  /** How `Collapse` begins: a leading run of separators becomes one hyphen, and any
      other first character is kept. */
  lemma CollapseHead(s: string)
    requires s != []
    ensures IsSep(s[0]) ==> Collapse(s) == "-" + Collapse(s[SepRunEnd(s, 0)..])
    ensures !IsSep(s[0]) ==> Collapse(s) == [s[0]] + Collapse(s[1..])
  {
  }

  /** Collapsing works part by part wherever two parts do not meet inside a run of
      separators. With `CollapseRun` and `CollapseHead` (a single character other than a
      separator is kept), this says that characters other than separators are kept in
      order and each maximal run becomes exactly one hyphen. */
  lemma {:induction false} CollapseJoin(x: string, y: string)
    requires x == [] || y == [] || !IsSep(x[|x| - 1]) || !IsSep(y[0])
    ensures Collapse(x + y) == Collapse(x) + Collapse(y)
    decreases |x|
  {
    if x == [] {
      assert x + y == y;
    } else {
      var e := CollapseStep(x, y);
      CollapseJoin(x[e..], y);
      PrefixJoin(if IsSep(x[0]) then "-" else [x[0]], Collapse(x[e..]), Collapse(y), Collapse(x), Collapse(x + y), Collapse(x[e..] + y));
    }
  }

  /** One step of `CollapseJoin`: the first character or run of `x` is the first of
      `x + y`, and what follows meets `y` as `x` does. */
  lemma CollapseStep(x: string, y: string) returns (e: nat)
    requires x != [] && (y == [] || !IsSep(x[|x| - 1]) || !IsSep(y[0]))
    ensures 0 < e <= |x| && (x[e..] == [] || y == [] || !IsSep(x[e..][|x[e..]| - 1]) || !IsSep(y[0]))
    ensures var h := if IsSep(x[0]) then "-" else [x[0]];
      Collapse(x) == h + Collapse(x[e..]) && Collapse(x + y) == h + Collapse(x[e..] + y)
  {
    e := if IsSep(x[0]) then SepRunEnd(x, 0) else 1;
    if IsSep(x[0]) {
      if e == |x| {
        assert IsSep(x[|x| - 1]);
      }
      SepRunEndPrefix(x, y, 0);
    }
    StepParts(x, y, e);
    CollapseHead(x);
    CollapseHead(x + y);
  }

  /** The parts `CollapseStep` cuts `x` and `x + y` into. */
  lemma StepParts(x: string, y: string, e: nat)
    requires 0 < e <= |x|
    ensures (x + y)[0] == x[0] && (x + y)[e..] == x[e..] + y
    ensures x[e..] != [] ==> x[e..][|x[e..]| - 1] == x[|x| - 1]
  {
  }

  const MaxNameLength := 50

  /** `s[:50]`. */
  function Truncate(s: string): (r: string)
    ensures |r| <= |s| && |r| <= MaxNameLength && r == s[..|r|]
    ensures |s| <= MaxNameLength ==> r == s
  {
    if |s| <= MaxNameLength then s else s[..MaxNameLength]
  }

  const DefaultName := "project"

  /** The name `create_project_folder` gives the folder before the timestamp: the
      sanitised name when one is given and not empty, otherwise `project`. The test comes
      before sanitising, so a name made only of punctuation yields the empty name. */
  function ProjectName(name: Option<string>): string
  {
    if name.Some? && name.value != "" then Truncate(Collapse(DropPunctuation(name.value)))
    else DefaultName
  }

  /** Every folder name is at most 50 characters of word characters and single hyphens. */
  lemma ProjectNameShape(name: Option<string>)
    ensures var r := ProjectName(name);
      && |r| <= MaxNameLength
      && (forall i :: 0 <= i < |r| ==> IsWord(r[i]) || r[i] == '-')
      && NoDoubleHyphen(r)
    ensures name.None? || name == Some("") ==> ProjectName(name) == DefaultName
  {
    if name.Some? && name.value != "" {
      var d := DropPunctuation(name.value);
      var c := Collapse(d);
      var r := Truncate(c);
      CollapsedWords(d);
      assert forall i :: 0 <= i < |r| ==> r[i] == c[i];
    }
  }

  /** Collapsing the separators of a text of word characters, whitespace and hyphens
      leaves word characters and hyphens. */
  lemma {:induction false} CollapsedWords(d: string)
    requires forall i :: 0 <= i < |d| ==> Kept(d[i])
    ensures forall i :: 0 <= i < |Collapse(d)| ==> IsWord(Collapse(d)[i]) || Collapse(d)[i] == '-'
    decreases |d|
  {
    if d != [] {
      var n := if IsSep(d[0]) then SepRunEnd(d, 0) else 1;
      var rest := d[n..];
      assert forall k :: 0 <= k < |rest| ==> rest[k] == d[n + k];
      CollapsedWords(rest);
      var t := Collapse(rest);
      var c := Collapse(d);
      assert c == (if IsSep(d[0]) then "-" else [d[0]]) + t;
      forall i | 0 <= i < |c| ensures IsWord(c[i]) || c[i] == '-' {
        if i > 0 {
          assert c[i] == t[i - 1];
        }
      }
    }
  }

  /** A non-empty name with no word character, whitespace or hyphen in it yields the
      empty name, not the default. */
  lemma PunctuationOnlyName(name: string)
    requires name != [] && forall i :: 0 <= i < |name| ==> !Kept(name[i])
    ensures ProjectName(Some(name)) == ""
  {
  }

  /** Sanitising a sanitised name changes nothing, except that the empty name a name
      of punctuation sanitises to is then replaced by the default. */
  lemma ProjectNameIdempotent(name: Option<string>)
    ensures ProjectName(name) != "" ==> ProjectName(Some(ProjectName(name))) == ProjectName(name)
    ensures ProjectName(name) == "" ==> ProjectName(Some(ProjectName(name))) == DefaultName
  {
    var r := ProjectName(name);
    ProjectNameShape(name);
    if r != "" {
      SanitizedFixed(r);
    }
  }

  /** A name of at most 50 word characters and single hyphens sanitises to itself. */
  lemma SanitizedFixed(r: string)
    requires r != [] && |r| <= MaxNameLength && NoDoubleHyphen(r)
    requires forall i :: 0 <= i < |r| ==> IsWord(r[i]) || r[i] == '-'
    ensures ProjectName(Some(r)) == r
  {
    assert forall i :: 0 <= i < |r| ==> Kept(r[i]);
    assert forall i :: 0 <= i < |r| ==> !IsSpace(r[i]);
    CollapseFixed(r);
  }

  /** `os.path.join(a, b)` for two parts. */
  function PathJoin(a: string, b: string): (r: string)
  {
    if b != [] && b[0] == '/' then b
    else if a == [] || a[|a| - 1] == '/' then a + b
    else a + "/" + b
  }

  /** The folder `create_project_folder` makes under `base`, for a given timestamp. */
  function ProjectPath(base: string, name: Option<string>, timestamp: string): string
  {
    PathJoin(base, ProjectName(name) + "_" + timestamp)
  }

  // ---------------------------------------------------------------------------
  // SQL and code out of the agents' answers
  // ---------------------------------------------------------------------------

  /** ``` `\s*\n(.*?CREATE.*?)\n` ``` and three backticks, ignoring case: an untagged block
      mentioning `CREATE`. */
  const CreateMarker := "CREATE"
  const CreateFence := Fence([""], true, CreateMarker, "\n" + Ticks)

  /** ``` `python\s*\n(.*?)` ``` and three backticks. */
  const PythonFence := Fence(["python"], false, "", Ticks)

  /** ``` `\s*\n(.*?)` ``` and three backticks: any untagged block. */
  const PlainFence := Fence([""], false, "", Ticks)

  /** `_extract_sql_from_schema`: an `sql` block (the database agent's pattern), else an
      untagged block mentioning `CREATE`, else the whole text, trimmed in every case. */
  function ExtractSql(content: string): (r: string)
    ensures NoOuterSpace(r)
  {
    if Search(content, DatabaseAgent.SqlFence, 0).Some? then Strip(Group(content, SearchSpan(content, DatabaseAgent.SqlFence, 0)))
    else if Search(content, CreateFence, 0).Some? then Strip(Group(content, SearchSpan(content, CreateFence, 0)))
    else Strip(content)
  }

  /** `_extract_code_from_markdown`: a `python` block, else an untagged block, else the
      whole text, trimmed in every case. */
  function ExtractCode(content: string): (r: string)
    ensures NoOuterSpace(r)
  {
    if Search(content, PythonFence, 0).Some? then Strip(Group(content, SearchSpan(content, PythonFence, 0)))
    else if Search(content, PlainFence, 0).Some? then Strip(Group(content, SearchSpan(content, PlainFence, 0)))
    else Strip(content)
  }

  /** The group an untagged `CREATE` block yields holds `CREATE`, in some case. */
  lemma CreateGroupMentions(content: string)
    requires Search(content, CreateFence, 0).Some?
    ensures var sp := SearchSpan(content, CreateFence, 0);
      IndexFromCaseless(content, CreateMarker, sp.g1).Some? && IndexFromCaseless(content, CreateMarker, sp.g1).value + |CreateMarker| <= sp.e1
  {
    var i := Search(content, CreateFence, 0).value;
    assert MatchAt(content, i, CreateFence) == MatchFence(content, i, [""], 0, true, CreateMarker, "\n" + Ticks);
    FenceMarker(content, i, [""], 0, true, CreateMarker, "\n" + Ticks);
  }

  /** An `sql` block after text without backticks yields its body, trimmed. */
  lemma SqlBlockTaken(pre: string, body: string, post: string)
    requires '`' !in pre && GoodBody(body, false, "")
    ensures ExtractSql(pre + Block("sql", body, Ticks) + post) == Strip(body)
  {
    FenceSearch(pre, ["sql"], 0, false, "", Ticks, body, post);
  }

  /** An untagged block mentioning `CREATE`, alone among text without backticks and
      followed by a line break or nothing, yields its body, trimmed. */
  lemma CreateBlockTaken(pre: string, body: string, post: string)
    requires '`' !in pre && '`' !in post && GoodBody(body, true, CreateMarker)
    requires post == [] || post[0] == '\n'
    ensures ExtractSql(pre + Block("", body, "\n" + Ticks) + post) == Strip(body)
  {
    var s := pre + Block("", body, "\n" + Ticks) + post;
    var b := |pre| + 3 + 1 + |body| + 1;
    BlockTicks(pre, "", body, "\n" + Ticks, post);
    UntaggedOpens(pre, body, "\n" + Ticks, post);
    RunUntagged(s, |pre|, "sql");
    RunUntagged(s, b, "sql");
    FenceMissesRuns(s, |pre|, b, ["sql"], false, "", Ticks);
    FenceSearch(pre, [""], 0, true, CreateMarker, "\n" + Ticks, body, post);
  }

  /** A `python` block after text without backticks yields its body, trimmed. */
  lemma PythonBlockTaken(pre: string, body: string, post: string)
    requires '`' !in pre && GoodBody(body, false, "")
    ensures ExtractCode(pre + Block("python", body, Ticks) + post) == Strip(body)
  {
    FenceSearch(pre, ["python"], 0, false, "", Ticks, body, post);
  }

  /** An untagged block, alone among text without backticks and followed by a line break
      or nothing, yields its body, trimmed. */
  lemma PlainBlockTaken(pre: string, body: string, post: string)
    requires '`' !in pre && '`' !in post && GoodBody(body, false, "")
    requires post == [] || post[0] == '\n'
    ensures ExtractCode(pre + Block("", body, Ticks) + post) == Strip(body)
  {
    var s := pre + Block("", body, Ticks) + post;
    var b := |pre| + 3 + 1 + |body|;
    BlockTicks(pre, "", body, Ticks, post);
    UntaggedOpens(pre, body, Ticks, post);
    RunUntagged(s, |pre|, "python");
    RunUntagged(s, b, "python");
    FenceMissesRuns(s, |pre|, b, ["python"], false, "", Ticks);
    FenceSearch(pre, [""], 0, false, "", Ticks, body, post);
  }

  /** An untagged block's opening run is followed by a line break. */
  lemma UntaggedOpens(pre: string, body: string, close: string, post: string)
    ensures var s := pre + Block("", body, close) + post; |pre| + 3 < |s| && s[|pre| + 3] == '\n'
  {
    BlockLayout(pre, "", body, close, post);
  }

  /** Text without backticks is kept whole, trimmed, by both extractors. */
  lemma UnfencedKept(content: string)
    requires '`' !in content
    ensures ExtractSql(content) == Strip(content) && ExtractCode(content) == Strip(content)
  {
    SearchNoOpener(content, DatabaseAgent.SqlFence, 0);
    SearchNoOpener(content, CreateFence, 0);
    SearchNoOpener(content, PythonFence, 0);
    SearchNoOpener(content, PlainFence, 0);
  }

  // ---------------------------------------------------------------------------
  // Frontend files
  // ---------------------------------------------------------------------------

  /** ``` `(?:javascript|jsx|js|typescript|tsx|ts|json|css|html):([^\n]+)\n(.*?)` ``` and three
      backticks: a language, a colon and a path on the opening line. */
  const Languages := ["javascript", "jsx", "js", "typescript", "tsx", "ts", "json", "css", "html"]
  const FrontendBlock := FileBlock(Languages)

  const Extensions := [".jsx", ".js", ".json", ".html", ".css", ".tsx", ".ts"]
  const ConfigFiles := ["package.json", "tsconfig.json"]
  const CommonWords := ["on", "off", "in", "at", "to", "as", "if", "of", "is", "it", "we", "do", "go", "no"]
  const DefaultPath := "src/App.jsx"
  const MinContent := 10
  const MinPath := 5

  predicate HasExtension(p: string)
  {
    exists i :: 0 <= i < |Extensions| && EndsWith(p, Extensions[i])
  }

  /** The path a block's opening line names, cleaned: trimmed, the default when nothing is
      left, then leading slashes and every `frontend/` removed and trimmed again. */
  function CleanPath(raw: string): string
  {
    var p := Strip(raw);
    var p := if p == "" then DefaultPath else p;
    Strip(Replace(LStripChar(p, '/'), "frontend/", ""))
  }

  /** A path already in place under `frontend/`: under `public/` or `src/`, or a JSON file
      without a directory. */
  predicate InPlace(p: string)
  {
    StartsWith(p, "public/") || StartsWith(p, "src/") || ('/' !in p && EndsWith(p, ".json"))
  }

  /** Where a cleaned path is put under `frontend/`: the two configuration files, paths
      under `public/` or `src/` and JSON files without a directory stay where they are;
      every other path moves under `src/`. The configuration files need no test of their
      own, being JSON files without a directory. */
  function Placed(p: string): (r: string)
    ensures InPlace(r)
    ensures InPlace(p) ==> r == p
    ensures !InPlace(p) ==> r == "src/" + p
  {
    if p in ConfigFiles then
      assert p[|p| - 5..] == ".json";
      p
    else if !StartsWith(p, "public/") && !StartsWith(p, "src/") then
      if '/' !in p && EndsWith(p, ".json") then p
      else
        var r := "src/" + p;
        assert r[..4] == "src/";
        r
    else p
  }

  /** Where a block with the path text `raw` and body `body` is saved under `frontend/`,
      or None when the block is skipped. */
  function BlockTarget(raw: string, body: string): Option<string>
  {
    var content := Strip(body);
    if content == "" || |content| < MinContent then None
    else
      var p := CleanPath(raw);
      if !(HasExtension(p) || p in ConfigFiles) then None
      else if |p| < MinPath && p !in ConfigFiles then None
      else if LowerStr(p) in CommonWords then None
      else Some(Placed(p))
  }

  /** A block is kept exactly when its trimmed body has at least 10 characters and its
      cleaned path is a configuration file or has a listed extension and at least 5
      characters; the test against common words never rejects a block the earlier tests
      let through. */
  lemma BlockTargetIff(raw: string, body: string)
    ensures var p := CleanPath(raw);
      && (BlockTarget(raw, body).Some? <==>
            |Strip(body)| >= MinContent && (p in ConfigFiles || (HasExtension(p) && |p| >= MinPath)))
      && (BlockTarget(raw, body).Some? ==> BlockTarget(raw, body).value == Placed(p))
  {
    var p := CleanPath(raw);
    if HasExtension(p) || p in ConfigFiles {
      CommonWordsUnreachable(p);
    }
  }

  /** No path with a listed extension, and neither configuration file, is a common word in
      any case. */
  lemma CommonWordsUnreachable(p: string)
    requires HasExtension(p) || p in ConfigFiles
    ensures LowerStr(p) !in CommonWords
  {
    if HasExtension(p) {
      var i :| 0 <= i < |Extensions| && EndsWith(p, Extensions[i]);
      ExtensionDotted(i);
      DottedNotCommon(p, Extensions[i]);
    } else {
      ConfigNotCommon(p);
    }
  }

  /** Neither configuration file is a common word in any case: both are too long. */
  lemma ConfigNotCommon(p: string)
    requires p in ConfigFiles
    ensures LowerStr(p) !in CommonWords
  {
    CommonWordsShort();
    assert |LowerStr(p)| == |p| > 3;
  }

  /** Every listed extension starts with a dot and has at least three characters. */
  lemma ExtensionDotted(i: nat)
    requires i < |Extensions|
    ensures |Extensions[i]| >= 3 && Extensions[i][0] == '.'
  {
  }

  /** A path ending in a dotted suffix of three or more characters is no common word. */
  lemma DottedNotCommon(p: string, e: string)
    requires |e| >= 3 && e[0] == '.' && EndsWith(p, e)
    ensures LowerStr(p) !in CommonWords
  {
    CommonWordsShort();
    if |p| == 3 {
      assert p[0] == p[|p| - |e|..][0] == e[0];
      assert LowerStr(p)[0] == Lower('.');
    }
  }

  /** Every common word has at most three characters, and none begins with a dot. */
  lemma CommonWordsShort()
    ensures forall w :: w in CommonWords ==> |w| <= 3 && w[0] != '.'
  {
  }

  /** A block whose path is `on` is never kept. */
  lemma OnNeverKept(body: string)
    ensures BlockTarget("on", body).None?
  {
    CleanOn();
    ShortNoExtension("on");
  }

  /** Every listed extension has at least three characters, so no shorter path has one. */
  lemma ShortNoExtension(p: string)
    requires |p| < 3
    ensures !HasExtension(p) && p !in ConfigFiles
  {
    forall i | 0 <= i < |Extensions| ensures |Extensions[i]| >= 3 { }
  }

  /** The path `on` is left as it is by cleaning. */
  lemma CleanOn()
    ensures CleanPath("on") == "on"
  {
    assert NoOuterSpace("on");
    assert LStripChar("on", '/') == "on";
    ReplaceAbsent("on", "frontend/", "");
  }

  /** The blocks `findall` returns, in order. */
  function FrontendBlocks(code: string): (spans: seq<Span>)
    ensures forall j :: 0 <= j < |spans| ==> InBounds(spans[j], 0, |code|)
  {
    FindAll(code, FrontendBlock, 0)
  }

  /** What one block amounts to: where it is saved (None when it is skipped) and the
      text it writes there. */
  datatype Outcome = Outcome(target: Option<string>, content: string)

  /** The outcome of every block, in order. */
  function Outcomes(code: string, spans: seq<Span>): (os: seq<Outcome>)
    requires forall k :: 0 <= k < |spans| ==> InBounds(spans[k], 0, |code|)
    ensures |os| == |spans|
    ensures forall j :: 0 <= j < |spans| ==>
      os[j] == Outcome(BlockTarget(Group(code, spans[j]), Group2(code, spans[j])), Strip(Group2(code, spans[j])))
  {
    seq(|spans|, j requires 0 <= j < |spans| => Outcome(BlockTarget(Group(code, spans[j]), Group2(code, spans[j])), Strip(Group2(code, spans[j]))))
  }

  /** The files a sequence of outcomes leaves, by path: each kept block writes its text at
      its path, replacing what an earlier block wrote there. */
  function SaveAll(os: seq<Outcome>): map<string, string>
  {
    if os == [] then map[]
    else
      var m := SaveAll(os[..|os| - 1]);
      match os[|os| - 1].target
      case None => m
      case Some(p) => m[p := os[|os| - 1].content]
  }

  /** A path holds a file exactly when some block is saved there, and the file is the text
      of the last such block. */
  lemma {:induction false} SaveAllLast(os: seq<Outcome>, p: string)
    ensures p in SaveAll(os) <==> exists j :: 0 <= j < |os| && os[j].target == Some(p)
    ensures p in SaveAll(os) ==>
      exists j :: 0 <= j < |os| && os[j].target == Some(p) && SaveAll(os)[p] == os[j].content
        && forall k :: j < k < |os| ==> os[k].target != Some(p)
  {
    if os != [] {
      var init := os[..|os| - 1];
      SaveAllLast(init, p);
      assert forall j :: 0 <= j < |init| ==> init[j] == os[j];
      if os[|os| - 1].target != Some(p) && p in SaveAll(os) {
        var j :| 0 <= j < |init| && init[j].target == Some(p) && SaveAll(init)[p] == init[j].content
          && forall k :: j < k < |init| ==> init[k].target != Some(p);
        assert SaveAll(os)[p] == os[j].content;
      }
    }
  }

  /** What `save_frontend` writes under `frontend/`: the kept blocks when the block pattern
      matches at all, and otherwise the whole answer, as extracted code, as `src/App.jsx`. */
  function FrontendFiles(code: string): map<string, string>
  {
    var spans := FrontendBlocks(code);
    if spans == [] then map[DefaultPath := ExtractCode(code)] else SaveAll(Outcomes(code, spans))
  }

  /** The fallback file appears only when no block matches; when blocks match and every
      one is skipped, nothing is written. */
  lemma FallbackOnlyWithoutBlocks(code: string)
    ensures FrontendBlocks(code) == [] ==> FrontendFiles(code) == map[DefaultPath := ExtractCode(code)]
    ensures var os := Outcomes(code, FrontendBlocks(code));
      os != [] && (forall j :: 0 <= j < |os| ==> os[j].target.None?) ==> FrontendFiles(code) == map[]
  {
    var spans := FrontendBlocks(code);
    if spans != [] {
      SkippedSaveNothing(Outcomes(code, spans));
    }
  }

  /** Outcomes that are all skipped write nothing. */
  lemma SkippedSaveNothing(os: seq<Outcome>)
    ensures (forall j :: 0 <= j < |os| ==> os[j].target.None?) ==> SaveAll(os) == map[]
  {
    if forall j :: 0 <= j < |os| ==> os[j].target.None? {
      forall p | p in SaveAll(os) ensures false {
        SaveAllLast(os, p);
      }
    }
  }

  /** Every file `save_frontend` writes sits in place under `frontend/`, and a file taken
      from a block holds at least 10 characters. */
  lemma FrontendFilesPlaced(code: string, p: string)
    requires p in FrontendFiles(code)
    ensures InPlace(p)
    ensures FrontendBlocks(code) != [] ==> |FrontendFiles(code)[p]| >= MinContent
  {
    var spans := FrontendBlocks(code);
    if spans == [] {
      assert DefaultPath[..4] == "src/";
    } else {
      var os := Outcomes(code, spans);
      SaveAllLast(os, p);
      var j :| 0 <= j < |os| && os[j].target == Some(p) && SaveAll(os)[p] == os[j].content;
      BlockTargetIff(Group(code, spans[j]), Group2(code, spans[j]));
    }
  }

  /** `save_frontend`: the files written under `frontend/`, by path, and the dictionary it
      returns, from each path to the file's full path. */
  method SaveFrontend(projectPath: string, code: string) returns (saved: map<string, string>, written: map<string, string>)
    ensures written == FrontendFiles(code)
    ensures saved.Keys == written.Keys
    ensures forall p :: p in saved ==> saved[p] == PathJoin(PathJoin(projectPath, "frontend"), p)
  {
    var frontendPath := PathJoin(projectPath, "frontend");
    var spans := FrontendBlocks(code);
    if spans != [] {
      saved, written := SaveBlocks(frontendPath, Outcomes(code, spans));
    } else {
      written := map[DefaultPath := ExtractCode(code)];
      saved := map[DefaultPath := PathJoin(frontendPath, DefaultPath)];
    }
  }

  /** The loop of `save_frontend` over the matched blocks, in order. */
  method SaveBlocks(frontendPath: string, os: seq<Outcome>) returns (saved: map<string, string>, written: map<string, string>)
    ensures written == SaveAll(os)
    ensures saved.Keys == written.Keys
    ensures forall p :: p in saved ==> saved[p] == PathJoin(frontendPath, p)
  {
    saved, written := map[], map[];
    var i := 0;
    while i < |os|
      invariant i <= |os|
      invariant written == SaveAll(os[..i])
      invariant saved.Keys == written.Keys
      invariant forall p :: p in saved ==> saved[p] == PathJoin(frontendPath, p)
    {
      assert os[..i + 1][..i] == os[..i];
      if os[i].target.Some? {
        var p := os[i].target.value;
        written := written[p := os[i].content];
        saved := saved[p := PathJoin(frontendPath, p)];
      }
      i := i + 1;
    }
    assert os[..|os|] == os;
  }

  // ---------------------------------------------------------------------------
  // The project layout
  // ---------------------------------------------------------------------------

  /** What `generate_project` is given. Dictionaries that may be missing are JSON values
      (`JNull` for None), whose truth value is Python's. */
  datatype Request = Request(
    architecture: string,
    databaseSchema: string,
    code: string,
    apiRoutePlan: Json,
    apiDocumentation: Json,
    requirementsTxt: Option<string>,
    frontendCode: string,
    tests: string,
    description: string,
    requirements: string,
    projectName: Option<string>)

  /** `save_requirements`: the given requirements, or the fixed default list when they are
      missing or empty. */
  function RequirementsFile(content: Option<string>): (r: string)
    ensures r != ""
    ensures content.Some? && content.value != "" ==> r == content.value
    ensures content.None? || content.value == "" ==> r == CodeGenerator.DefaultRequirements
  {
    if content.Some? && content.value != "" then content.value else CodeGenerator.DefaultRequirements
  }

  const ReadmeHead := "# Generated Project\n\n## Description\n"
  const ReadmeRequirements := "\n\n## Requirements\n"
  /** The fixed instructions that end every README, line by line; the first two lines are
      empty, so the text starts with a blank line. */
  const ReadmeRestLines: seq<string> := [
    "",
    "",
    "## Generated Files",
    "- `main.py`: FastAPI backend REST API",
    "- `frontend/`: React TypeScript frontend",
    "- `docs/api_route_plan.json`: API route plan",
    "- `database/schema.sql`: SQLite database schema",
    "- `ARCHITECTURE.md`: Architecture document",
    "",
    "## Installation",
    "```bash",
    "pip install -r requirements.txt",
    "```",
    "",
    "## Running",
    "",
    "### Backend",
    "```bash",
    "# Install dependencies",
    "pip install -r requirements.txt",
    "",
    "# Run the FastAPI backend",
    "uvicorn main:app --reload",
    "```",
    "",
    "The API will be available at `http://localhost:8000`",
    "API documentation will be available at `http://localhost:8000/docs`",
    "",
    "### Frontend",
    "```bash",
    "cd frontend",
    "npm install",
    "npm start",
    "```",
    "Frontend runs at `http://localhost:3000`",
    "",
    "## Testing",
    "```bash",
    "pytest tests/",
    "```",
    ""
  ]
  const ReadmeRest := Join("\n", ReadmeRestLines)

  /** `save_readme`: the description and the requirements (or `None specified`) in the
      fixed README text. */
  function ReadmeText(description: string, requirements: string): string
  {
    ReadmeHead + description + ReadmeRequirements + (if requirements != "" then requirements else "None specified") + ReadmeRest
  }

  /** `m` with every path moved under `dir`. */
  function Under(dir: string, m: map<string, string>): (r: map<string, string>)
    ensures forall p :: p in m ==> dir + p in r && r[dir + p] == m[p]
    ensures forall q :: q in r ==> StartsWith(q, dir) && q[|dir|..] in m
  {
    map q | q in (set p | p in m :: dir + p) :: m[q[|dir|..]]
  }

  const ArchitecturePath := "ARCHITECTURE.md"
  const SchemaPath := "database" + "/" + "schema.sql"
  const CodePath := "main.py"
  const ReadmePath := "README.md"
  const RequirementsPath := "requirements.txt"
  const RoutePlanPath := "docs" + "/" + "api_route_plan.json"
  const DocumentationPath := "docs" + "/" + "api_documentation.json"
  const FrontendDir := "frontend/"
  const TestsPath := "tests" + "/" + "test_main.py"

  /** The contents `generate_project` writes, before they are laid out: the optional
      parts are None when they are not written. */
  datatype Contents = Contents(
    architecture: string,
    schema: string,
    code: string,
    readme: string,
    requirements: string,
    routePlan: Option<string>,
    documentation: Option<string>,
    frontend: Option<map<string, string>>,
    tests: Option<string>)

  /** What each file of the project holds, with `dump` standing for `json.dump` with an
      indent of two. */
  function ContentsOf(req: Request, dump: Json -> string): Contents
  {
    Contents(
      req.architecture,
      ExtractSql(req.databaseSchema),
      ExtractCode(req.code),
      ReadmeText(req.description, req.requirements),
      RequirementsFile(req.requirementsTxt),
      if Truthy(req.apiRoutePlan) then Some(dump(req.apiRoutePlan)) else None,
      if Truthy(req.apiDocumentation) then Some(dump(req.apiDocumentation)) else None,
      if req.frontendCode != "" then Some(FrontendFiles(req.frontendCode)) else None,
      if req.tests != "" then Some(ExtractCode(req.tests)) else None)
  }

  /** An optional file as a map of at most one entry. */
  function Optional(path: string, content: Option<string>): map<string, string>
  {
    if content.Some? then map[path := content.value] else map[]
  }

  /** Adding an optional file is writing it when there is content, and nothing otherwise. */
  lemma AddOptional(m: map<string, string>, path: string, content: Option<string>)
    ensures m + Optional(path, content) == if content.Some? then m[path := content.value] else m
  {
  }

  /** Adding no files changes nothing. */
  lemma AddNothing(m: map<string, string>)
    ensures m + map[] == m
  {
  }

  /** The five files that are always written, in the order `generate_project` writes them. */
  function BaseFiles(c: Contents): map<string, string>
  {
    map[
      ArchitecturePath := c.architecture,
      SchemaPath := c.schema,
      CodePath := c.code,
      ReadmePath := c.readme,
      RequirementsPath := c.requirements]
  }

  /** The files under `frontend/`. */
  function FrontendPart(c: Contents): map<string, string>
  {
    if c.frontend.Some? then Under(FrontendDir, c.frontend.value) else map[]
  }

  /** The files of the project folder, by path relative to the folder, in the order they
      are written: a later file replaces an earlier one at the same path. */
  function Tree(c: Contents): map<string, string>
  {
    BaseFiles(c)
    + Optional(RoutePlanPath, c.routePlan)
    + Optional(DocumentationPath, c.documentation)
    + FrontendPart(c)
    + Optional(TestsPath, c.tests)
  }

  /** The files the project folder holds once `generate_project` is done. */
  function ProjectTree(req: Request, dump: Json -> string): map<string, string>
  {
    Tree(ContentsOf(req, dump))
  }

  /** The paths outside `frontend/` a project may hold. */
  const FixedPaths := {ArchitecturePath, SchemaPath, CodePath, ReadmePath, RequirementsPath, RoutePlanPath, DocumentationPath, TestsPath}

  /** The fixed paths have eight different lengths, so they are distinct. */
  lemma FixedPathLengths()
    ensures |ArchitecturePath| == 15 && |SchemaPath| == 19 && |CodePath| == 7 && |ReadmePath| == 9
    ensures |RequirementsPath| == 16 && |RoutePlanPath| == 24 && |DocumentationPath| == 27 && |TestsPath| == 18
  {
  }

  /** No fixed path lies under `frontend/`. */
  lemma FixedOutsideFrontend()
    ensures forall q :: q in FixedPaths ==> !StartsWith(q, FrontendDir)
  {
    forall q | q in FixedPaths ensures !StartsWith(q, FrontendDir) {
      assert q[0] != FrontendDir[0];
    }
  }

  /** Every file under `frontend/` in the tree is a frontend file. */
  lemma FrontendPartUnder(c: Contents)
    ensures forall q :: q in FrontendPart(c) ==> StartsWith(q, FrontendDir) && c.frontend.Some? && q[|FrontendDir|..] in c.frontend.value
  {
  }

  /** A path of the tree is a fixed path or one of the files under `frontend/`. */
  lemma TreeKeys(c: Contents, q: string)
    requires q in Tree(c)
    ensures q in FixedPaths || q in FrontendPart(c)
  {
    assert Tree(c).Keys == BaseFiles(c).Keys + Optional(RoutePlanPath, c.routePlan).Keys
      + Optional(DocumentationPath, c.documentation).Keys + FrontendPart(c).Keys + Optional(TestsPath, c.tests).Keys;
  }

  /** The fixed-path files of the tree are those of the backend part. */
  lemma TreeOnFixed(c: Contents, q: string)
    requires q in FixedPaths
    ensures q in Tree(c) <==> q in (BaseFiles(c) + Optional(RoutePlanPath, c.routePlan) + Optional(DocumentationPath, c.documentation) + Optional(TestsPath, c.tests))
    ensures q in Tree(c) ==> Tree(c)[q] == (BaseFiles(c) + Optional(RoutePlanPath, c.routePlan) + Optional(DocumentationPath, c.documentation) + Optional(TestsPath, c.tests))[q]
  {
    FixedOutsideFrontend();
    FrontendPartUnder(c);
    assert q !in FrontendPart(c);
  }

  /** The five files that are always written are in the tree, with their contents. */
  lemma FixedFilesLayout(c: Contents)
    ensures ArchitecturePath in Tree(c) && Tree(c)[ArchitecturePath] == c.architecture
    ensures SchemaPath in Tree(c) && Tree(c)[SchemaPath] == c.schema
    ensures CodePath in Tree(c) && Tree(c)[CodePath] == c.code
    ensures ReadmePath in Tree(c) && Tree(c)[ReadmePath] == c.readme
    ensures RequirementsPath in Tree(c) && Tree(c)[RequirementsPath] == c.requirements
  {
    BaseFilesLayout(c);
    BaseFileInTree(c, ArchitecturePath);
    BaseFileInTree(c, SchemaPath);
    BaseFileInTree(c, CodePath);
    BaseFileInTree(c, ReadmePath);
    BaseFileInTree(c, RequirementsPath);
  }

  /** The five files that are always written, each at its own path. */
  lemma BaseFilesLayout(c: Contents)
    ensures BaseFiles(c).Keys == {ArchitecturePath, SchemaPath, CodePath, ReadmePath, RequirementsPath}
    ensures BaseFiles(c)[ArchitecturePath] == c.architecture && BaseFiles(c)[SchemaPath] == c.schema
    ensures BaseFiles(c)[CodePath] == c.code && BaseFiles(c)[ReadmePath] == c.readme
    ensures BaseFiles(c)[RequirementsPath] == c.requirements
  {
    FixedPathLengths();
  }

  /** No later file replaces one of the five that are always written. */
  lemma BaseFileInTree(c: Contents, q: string)
    requires q in BaseFiles(c)
    ensures q in Tree(c) && Tree(c)[q] == BaseFiles(c)[q]
  {
    BaseFilesLayout(c);
    FixedPathLengths();
    assert q == ArchitecturePath || q == SchemaPath || q == CodePath || q == ReadmePath || q == RequirementsPath;
    assert q != RoutePlanPath && q != DocumentationPath && q != TestsPath;
    TreeOnFixed(c, q);
    var m1 := BaseFiles(c) + Optional(RoutePlanPath, c.routePlan);
    var m2 := m1 + Optional(DocumentationPath, c.documentation);
    OptionalElsewhere(BaseFiles(c), RoutePlanPath, c.routePlan, q);
    OptionalElsewhere(m1, DocumentationPath, c.documentation, q);
    OptionalElsewhere(m2, TestsPath, c.tests, q);
  }

  /** An optional file at another path leaves the entry at `q` as it was. */
  lemma OptionalElsewhere(m: map<string, string>, path: string, content: Option<string>, q: string)
    requires q != path
    ensures q in m + Optional(path, content) <==> q in m
    ensures q in m ==> (m + Optional(path, content))[q] == m[q]
  {
  }

  /** Each optional file outside `frontend/` is there exactly when it is written. */
  lemma OptionalFilesLayout(c: Contents)
    ensures RoutePlanPath in Tree(c) <==> c.routePlan.Some?
    ensures c.routePlan.Some? ==> Tree(c)[RoutePlanPath] == c.routePlan.value
    ensures DocumentationPath in Tree(c) <==> c.documentation.Some?
    ensures c.documentation.Some? ==> Tree(c)[DocumentationPath] == c.documentation.value
    ensures TestsPath in Tree(c) <==> c.tests.Some?
    ensures c.tests.Some? ==> Tree(c)[TestsPath] == c.tests.value
  {
    FixedPathLengths();
    TreeOnFixed(c, RoutePlanPath);
    TreeOnFixed(c, DocumentationPath);
    TreeOnFixed(c, TestsPath);
  }

  /** The files under `frontend/` are exactly the frontend files, when they are written,
      and nothing else is outside the fixed paths. */
  lemma TreeFrontendFiles(c: Contents)
    ensures forall q :: q in Tree(c) ==> q in FixedPaths || StartsWith(q, FrontendDir)
    ensures forall q :: q in Tree(c) && StartsWith(q, FrontendDir) ==> c.frontend.Some? && q[|FrontendDir|..] in c.frontend.value
    ensures c.frontend.Some? ==> forall p :: p in c.frontend.value ==>
      FrontendDir + p in Tree(c) && Tree(c)[FrontendDir + p] == c.frontend.value[p]
  {
    FixedOutsideFrontend();
    FrontendPartUnder(c);
    forall q | q in Tree(c) ensures q in FixedPaths || q in FrontendPart(c) {
      TreeKeys(c, q);
    }
    if c.frontend.Some? {
      forall p | p in c.frontend.value
        ensures FrontendDir + p in Tree(c) && Tree(c)[FrontendDir + p] == c.frontend.value[p]
      {
        assert StartsWith(FrontendDir + p, FrontendDir);
        assert FrontendDir + p !in FixedPaths;
      }
    }
  }

  /** The keys of the dictionary `generate_project` returns. */
  datatype ResultKey =
    | ProjectPathKey | ArchitectureFileKey | DatabaseSchemaFileKey | CodeFileKey | ReadmeFileKey
    | RequirementsFileKey | ApiRoutePlanFileKey | ApiDocumentationFileKey | FrontendFilesKey
    | FrontendPathKey | TestFileKey

  /** The key as the dictionary spells it. */
  function KeyName(k: ResultKey): string
  {
    match k
    case ProjectPathKey => "project_path"
    case ArchitectureFileKey => "architecture_file"
    case DatabaseSchemaFileKey => "database_schema_file"
    case CodeFileKey => "code_file"
    case ReadmeFileKey => "readme_file"
    case RequirementsFileKey => "requirements_file"
    case ApiRoutePlanFileKey => "api_route_plan_file"
    case ApiDocumentationFileKey => "api_documentation_file"
    case FrontendFilesKey => "frontend_files"
    case FrontendPathKey => "frontend_path"
    case TestFileKey => "test_file"
  }

  /** Different keys are spelled differently: all lengths differ but for `code_file` and
      `test_file`, which differ in their first letter. */
  lemma KeyNamesDistinct(a: ResultKey, b: ResultKey)
    ensures KeyName(a) == KeyName(b) ==> a == b
  {
  }

  /** The keys that are always there. */
  const AlwaysKeys := {ProjectPathKey, ArchitectureFileKey, DatabaseSchemaFileKey, CodeFileKey, ReadmeFileKey, RequirementsFileKey}

  /** The keys whose value is the path of one file or folder the project holds. */
  predicate IsFileKey(k: ResultKey)
  {
    k != ProjectPathKey && k != FrontendFilesKey
  }

  /** Where in the project folder the file or folder of a key is. */
  function KeyPath(k: ResultKey): string
  {
    match k
    case ArchitectureFileKey => ArchitecturePath
    case DatabaseSchemaFileKey => SchemaPath
    case CodeFileKey => CodePath
    case ReadmeFileKey => ReadmePath
    case RequirementsFileKey => RequirementsPath
    case ApiRoutePlanFileKey => RoutePlanPath
    case ApiDocumentationFileKey => DocumentationPath
    case FrontendPathKey => "frontend"
    case TestFileKey => TestsPath
    case _ => ""
  }

  /** Joining a folder and then a name is joining the path through that folder. */
  lemma JoinThrough(p: string, dir: string, name: string)
    requires dir != [] && dir[0] != '/' && dir[|dir| - 1] != '/'
    requires name != [] && name[0] != '/'
    ensures PathJoin(PathJoin(p, dir), name) == PathJoin(p, dir + "/" + name)
  {
    var d := PathJoin(p, dir);
    assert d[|d| - 1] == dir[|dir| - 1];
  }

  /** The paths `save_database_schema`, `save_api_route_plan`, `save_api_documentation`
      and `save_tests` join in two steps are the paths of their files in the folder. */
  lemma NestedJoins(path: string)
    ensures PathJoin(PathJoin(path, "database"), "schema.sql") == PathJoin(path, KeyPath(DatabaseSchemaFileKey))
    ensures PathJoin(PathJoin(path, "docs"), "api_route_plan.json") == PathJoin(path, KeyPath(ApiRoutePlanFileKey))
    ensures PathJoin(PathJoin(path, "docs"), "api_documentation.json") == PathJoin(path, KeyPath(ApiDocumentationFileKey))
    ensures PathJoin(PathJoin(path, "tests"), "test_main.py") == PathJoin(path, KeyPath(TestFileKey))
  {
    JoinThrough(path, "database", "schema.sql");
    JoinThrough(path, "docs", "api_route_plan.json");
    JoinThrough(path, "docs", "api_documentation.json");
    JoinThrough(path, "tests", "test_main.py");
  }

  /** The value of `frontend_files`: each saved frontend file by its full path. */
  function Listing(saved: map<string, string>): Json
  {
    JObj(map p | p in saved :: JStr(saved[p]))
  }

  /** The listing of frontend files saved in the folder `dir`: each file's relative path
      mapped to its full path. */
  function FrontendListing(dir: string, written: map<string, string>): (r: Json)
    ensures r.JObj? && r.fields.Keys == written.Keys
  {
    JObj(map p | p in written :: JStr(PathJoin(dir, p)))
  }

  /** Files saved under `dir` by their relative paths are listed by their full paths. */
  lemma SavedListing(dir: string, saved: map<string, string>, written: map<string, string>)
    requires saved.Keys == written.Keys
    requires forall p :: p in saved ==> saved[p] == PathJoin(dir, p)
    ensures Listing(saved) == FrontendListing(dir, written)
  {
  }

  /** The dictionary's `frontend_files` entry, when there is one, lists what was saved. */
  lemma ResultListing(path: string, req: Request, saved: Option<map<string, string>>)
    ensures FrontendFilesKey in ResultFiles(path, req, saved) ==>
      saved.Some? && ResultFiles(path, req, saved)[FrontendFilesKey] == Listing(saved.value)
  {
  }

  /** What the dictionary holds at a key: the folder, the listing of the frontend files,
      or the path of the key's file or folder under the project folder. */
  function EntryValue(path: string, saved: Option<map<string, string>>, k: ResultKey): Json
  {
    if k == ProjectPathKey then JStr(path)
    else if k == FrontendFilesKey then (if saved.Some? then Listing(saved.value) else JNull)
    else JStr(PathJoin(path, KeyPath(k)))
  }

  /** The keys of the dictionary: those that are always there, and one for each optional
      part that is written. */
  function ResultKeys(req: Request, frontendSaved: bool): set<ResultKey>
  {
    AlwaysKeys
    + (if Truthy(req.apiRoutePlan) then {ApiRoutePlanFileKey} else {})
    + (if Truthy(req.apiDocumentation) then {ApiDocumentationFileKey} else {})
    + (if frontendSaved then {FrontendFilesKey, FrontendPathKey} else {})
    + (if req.tests != "" then {TestFileKey} else {})
  }

  /** Each optional key is there exactly when its part is written. */
  lemma ResultKeysIff(req: Request, frontendSaved: bool)
    ensures AlwaysKeys <= ResultKeys(req, frontendSaved)
    ensures ApiRoutePlanFileKey in ResultKeys(req, frontendSaved) <==> Truthy(req.apiRoutePlan)
    ensures ApiDocumentationFileKey in ResultKeys(req, frontendSaved) <==> Truthy(req.apiDocumentation)
    ensures FrontendFilesKey in ResultKeys(req, frontendSaved) <==> frontendSaved
    ensures FrontendPathKey in ResultKeys(req, frontendSaved) <==> frontendSaved
    ensures TestFileKey in ResultKeys(req, frontendSaved) <==> req.tests != ""
  {
  }

  /** The file of each key is in the tree when its part is written. */
  lemma KeyPathInTree(c: Contents, k: ResultKey)
    requires IsFileKey(k) && k != FrontendPathKey
    requires k == ApiRoutePlanFileKey ==> c.routePlan.Some?
    requires k == ApiDocumentationFileKey ==> c.documentation.Some?
    requires k == TestFileKey ==> c.tests.Some?
    ensures KeyPath(k) in Tree(c)
  {
    match k
    case ApiRoutePlanFileKey => OptionalFilesLayout(c);
    case ApiDocumentationFileKey => OptionalFilesLayout(c);
    case TestFileKey => OptionalFilesLayout(c);
    case _ => FixedFilesLayout(c);
  }

  /** The dictionary `generate_project` returns for the project folder `path`: the paths
      of the files it wrote, and the frontend files `saved` when it wrote any. */
  function ResultFiles(path: string, req: Request, saved: Option<map<string, string>>): map<ResultKey, Json>
  {
    map k | k in ResultKeys(req, saved.Some?) :: EntryValue(path, saved, k)
  }

  /** `generate_project`: makes the folder, writes the files one after the other and
      returns the dictionary of their paths. `tree` is what the folder holds afterwards. */
  method GenerateProject(base: string, timestamp: string, req: Request, dump: Json -> string)
    returns (files: map<ResultKey, Json>, tree: map<string, string>)
    ensures tree == ProjectTree(req, dump)
    ensures AlwaysKeys <= files.Keys
    ensures files[ProjectPathKey] == JStr(ProjectPath(base, req.projectName, timestamp))
    ensures ApiRoutePlanFileKey in files <==> Truthy(req.apiRoutePlan)
    ensures ApiDocumentationFileKey in files <==> Truthy(req.apiDocumentation)
    ensures FrontendFilesKey in files <==> req.frontendCode != ""
    ensures FrontendPathKey in files <==> req.frontendCode != ""
    ensures TestFileKey in files <==> req.tests != ""
    ensures forall k :: k in files && IsFileKey(k) ==> files[k] == JStr(PathJoin(ProjectPath(base, req.projectName, timestamp), KeyPath(k)))
    ensures forall k :: k in files && IsFileKey(k) && k != FrontendPathKey ==> KeyPath(k) in tree
    ensures FrontendFilesKey in files ==>
      files[FrontendFilesKey] == FrontendListing(PathJoin(ProjectPath(base, req.projectName, timestamp), "frontend"), FrontendFiles(req.frontendCode))
  {
    var path := ProjectPath(base, req.projectName, timestamp);
    var c := ContentsOf(req, dump);
    tree := BaseFiles(c);
    AddOptional(tree, RoutePlanPath, c.routePlan);
    if Truthy(req.apiRoutePlan) {
      tree := tree[RoutePlanPath := c.routePlan.value];
    }
    AddOptional(tree, DocumentationPath, c.documentation);
    if Truthy(req.apiDocumentation) {
      tree := tree[DocumentationPath := c.documentation.value];
    }
    AddNothing(tree);
    var saved: Option<map<string, string>> := None;
    if req.frontendCode != "" {
      var paths, written := SaveFrontend(path, req.frontendCode);
      saved := Some(paths);
      SavedListing(PathJoin(path, "frontend"), paths, written);
      tree := tree + Under(FrontendDir, written);
    }
    AddOptional(tree, TestsPath, c.tests);
    if req.tests != "" {
      tree := tree[TestsPath := c.tests.value];
    }
    files := ResultFiles(path, req, saved);
    ResultKeysIff(req, saved.Some?);
    ResultListing(path, req, saved);
    forall k | k in files && IsFileKey(k) && k != FrontendPathKey ensures KeyPath(k) in tree {
      KeyPathInTree(c, k);
    }
  }
}
