/** The database agent's schema extraction from the language model's answer: an `sql`
    fenced block if there is one, otherwise the `CREATE TABLE` statements found in the
    text, otherwise the whole text, trimmed in every case. */
module DatabaseAgent {
  import opened Values
  import opened Strings
  import opened Scanners
  import opened ScanFacts

  const AgentName := "database_agent"

  /** ``` `sql\s*\n(.*?)` ``` and three backticks, case-sensitive. */
  const SqlFence := Fence(["sql"], false, "", Ticks)

  /** The schema the agent keeps from the model's answer. */
  function ExtractSqlSchema(output: string): (r: string)
    ensures NoOuterSpace(r)
    ensures Search(output, SqlFence, 0).Some? ==> r == Strip(Group(output, SearchSpan(output, SqlFence, 0)))
    ensures Search(output, SqlFence, 0).None? && FindAll(output, CreateTable, 0) != [] ==>
      r == Strip(Join("\n\n", Groups(output, FindAll(output, CreateTable, 0))))
    ensures Search(output, SqlFence, 0).None? && FindAll(output, CreateTable, 0) == [] ==> r == Strip(output)
  {
    if Search(output, SqlFence, 0).Some? then
      Strip(Group(output, SearchSpan(output, SqlFence, 0)))
    else
      var statements := FindAll(output, CreateTable, 0);
      if statements != [] then Strip(Join("\n\n", Groups(output, statements)))
      else Strip(output)
  }

  /** An `sql` block after text without backticks yields its body, trimmed, whatever
      follows the block. */
  lemma SqlBlockExtracted(pre: string, body: string, post: string)
    requires '`' !in pre && GoodBody(body, false, "")
    ensures ExtractSqlSchema(pre + Block("sql", body, Ticks) + post) == Strip(body)
  {
    FenceSearch(pre, ["sql"], 0, false, "", Ticks, body, post);
  }

  /** Text with no backtick and no `CREATE TABLE` in any case is kept whole, trimmed. */
  lemma PlainTextKept(s: string)
    requires '`' !in s
    requires forall k :: 0 <= k < |s| ==> !AtCaseless(s, CreateTableWords, k)
    ensures ExtractSqlSchema(s) == Strip(s)
  {
    SearchNoOpener(s, SqlFence, 0);
    forall k | 0 <= k <= |s| ensures MatchAt(s, k, CreateTable).None? {
      if k < |s| {
        assert !AtCaseless(s, CreateTableWords, k);
      }
    }
    assert Search(s, CreateTable, 0).None?;
  }

  /** A `CREATE TABLE` statement as the pattern finds it: the words, a non-empty text
      without a semicolon, and the semicolon. */
  function Statement(b: string): (r: string)
    ensures |r| == 13 + |b|
  {
    CreateTableWords + b + ";"
  }

  /** No `CREATE TABLE`, in any case, starts inside `x`. */
  predicate NoStatement(x: string)
  {
    forall k :: 0 <= k < |x| ==> !AtCaseless(x, CreateTableWords, k)
  }

  /** A single statement among text without backticks and without any other
      `CREATE TABLE`: the statement itself, up to and including its semicolon. */
  lemma OneStatementExtracted(pre: string, b: string, post: string)
    requires '`' !in pre && '`' !in b && '`' !in post
    requires NoStatement(pre) && NoStatement(post)
    requires b != [] && ';' !in b
    ensures ExtractSqlSchema(pre + Statement(b) + post) == Statement(b)
  {
    var s := pre + Statement(b) + post;
    OneLayout(pre, b, post);
    OneSchema(s, |pre|, |b|);
  }

  /** Two statements among text without backticks and without any other `CREATE TABLE`:
      both, in order, joined by a blank line. */
  lemma TwoStatementsExtracted(pre: string, b1: string, mid: string, b2: string, post: string)
    requires '`' !in pre && '`' !in b1 && '`' !in mid && '`' !in b2 && '`' !in post
    requires NoStatement(pre) && NoStatement(mid) && NoStatement(post)
    requires b1 != [] && ';' !in b1 && b2 != [] && ';' !in b2
    ensures ExtractSqlSchema(pre + Statement(b1) + mid + Statement(b2) + post) == Statement(b1) + "\n\n" + Statement(b2)
  {
    var d := |pre| + 13 + |b1|;
    FiveParts(pre, Statement(b1), mid, Statement(b2), post);
    TailLayout(pre, b1, mid, b2, post);
    TwoSchema(pre + Statement(b1) + (mid + Statement(b2) + post), |pre|, |b1|, d + |mid|, |b2|, Statement(b1), Statement(b2));
  }

  /** Where both statements of `pre + Statement(b1) + (mid + Statement(b2) + post)` sit,
      and that no other `CREATE TABLE` starts in it. */
  lemma TailLayout(pre: string, b1: string, mid: string, b2: string, post: string)
    requires '`' !in pre && '`' !in b1 && '`' !in mid && '`' !in b2 && '`' !in post
    requires NoStatement(pre) && NoStatement(mid) && NoStatement(post)
    requires b1 != [] && ';' !in b1 && b2 != [] && ';' !in b2
    ensures var s := pre + Statement(b1) + (mid + Statement(b2) + post);
      var d := |pre| + 13 + |b1|; var o := d + |mid|;
      && '`' !in s && StatementAt(s, |pre|, |b1|) && StatementAt(s, o, |b2|)
      && s[|pre|..d] == Statement(b1) && s[o..o + 13 + |b2|] == Statement(b2)
      && Clear(s, 0, |pre|) && Clear(s, d, o) && Clear(s, o + 13 + |b2|, |s|)
  {
    OneLayout(mid, b2, post);
    TwoLayout(pre, b1, mid + Statement(b2) + post, |mid|, |b2|, Statement(b2));
  }

  /** Five texts in a row are the first two followed by the other three. */
  lemma FiveParts(a: string, b: string, c: string, d: string, e: string)
    ensures a + b + c + d + e == a + b + (c + d + e)
  {
  }

  /** A statement of `n` characters between the words and the semicolon sits at `o`. */
  predicate StatementAt(s: string, o: nat, n: nat)
  {
    && o + 13 + n <= |s| && n > 0 && At(s, CreateTableWords, o)
    && (forall k :: o + 12 <= k < o + 12 + n ==> s[k] != ';')
    && s[o + 12 + n] == ';'
  }

  /** No `CREATE TABLE`, in any case, starts at an offset from `i` up to `j`. */
  predicate Clear(s: string, i: nat, j: nat)
  {
    forall k :: i <= k < j ==> !AtCaseless(s, CreateTableWords, k)
  }

  /** The schema of a text without backticks holding one statement at `o` and no other
      `CREATE TABLE` is that statement. */
  lemma OneSchema(s: string, o: nat, n: nat)
    requires '`' !in s && StatementAt(s, o, n)
    requires Clear(s, 0, o) && Clear(s, o + 13 + n, |s|)
    ensures ExtractSqlSchema(s) == s[o..o + 13 + n]
  {
    var e := o + 13 + n;
    NoSqlBlock(s);
    StatementSearch(s, 0, o, n);
    NothingAfter(s, e);
    StatementStripped(s, o, n);
    ScannedOne(s, o, e, s[o..e]);
  }

  /** The schema of a text without an `sql` block in which `findall` finds one statement
      without outer whitespace: that statement. */
  lemma ScannedOne(s: string, o: nat, e: nat, x: string)
    requires o < e <= |s| && s[o..e] == x && NoOuterSpace(x)
    requires Search(s, SqlFence, 0).None?
    requires Search(s, CreateTable, 0).Some? && SearchSpan(s, CreateTable, 0) == Span(o, e, o, o, e)
    requires Search(s, CreateTable, e).None?
    ensures ExtractSqlSchema(s) == x
  {
    FindAllOne(s, CreateTable, 0, Span(o, e, o, o, e));
    assert Groups(s, FindAll(s, CreateTable, 0)) == [x];
  }

  /** The schema of a text without backticks holding statements at `o1` and at `o2` and
      no other `CREATE TABLE` is the two, joined by a blank line. */
  lemma TwoSchema(s: string, o1: nat, n1: nat, o2: nat, n2: nat, x1: string, x2: string)
    requires '`' !in s && StatementAt(s, o1, n1) && StatementAt(s, o2, n2) && o1 + 13 + n1 <= o2
    requires Clear(s, 0, o1) && Clear(s, o1 + 13 + n1, o2) && Clear(s, o2 + 13 + n2, |s|)
    requires s[o1..o1 + 13 + n1] == x1 && s[o2..o2 + 13 + n2] == x2
    ensures ExtractSqlSchema(s) == x1 + "\n\n" + x2
  {
    TwoFound(s, o1, n1, o2, n2, x1, x2);
    ScannedTwo(s, o1, o1 + 13 + n1, o2, o2 + 13 + n2, x1, x2);
  }

  /** A text without backticks holding statements at `o1` and at `o2` and no other
      `CREATE TABLE` has no `sql` block, `findall` finds exactly the two, and neither has
      whitespace at its ends. */
  lemma TwoFound(s: string, o1: nat, n1: nat, o2: nat, n2: nat, x1: string, x2: string)
    requires '`' !in s && StatementAt(s, o1, n1) && StatementAt(s, o2, n2) && o1 + 13 + n1 <= o2
    requires Clear(s, 0, o1) && Clear(s, o1 + 13 + n1, o2) && Clear(s, o2 + 13 + n2, |s|)
    requires s[o1..o1 + 13 + n1] == x1 && s[o2..o2 + 13 + n2] == x2
    ensures TwoScanned(s, o1, o1 + 13 + n1, o2, o2 + 13 + n2, x1, x2)
  {
    NoSqlBlock(s);
    StatementSearch(s, 0, o1, n1);
    StatementSearch(s, o1 + 13 + n1, o2, n2);
    NothingAfter(s, o2 + 13 + n2);
    StatementStripped(s, o1, n1);
    StatementStripped(s, o2, n2);
  }

  /** `s` has no `sql` block, the statement search finds `x1` from `o1` to `e1`, then `x2`
      from `o2` to `e2`, then nothing, and neither has whitespace at its ends. */
  predicate TwoScanned(s: string, o1: nat, e1: nat, o2: nat, e2: nat, x1: string, x2: string)
  {
    && o1 < e1 <= o2 < e2 <= |s| && s[o1..e1] == x1 && s[o2..e2] == x2
    && Search(s, SqlFence, 0).None?
    && Search(s, CreateTable, 0).Some? && SearchSpan(s, CreateTable, 0) == Span(o1, e1, o1, o1, e1)
    && Search(s, CreateTable, e1).Some? && SearchSpan(s, CreateTable, e1) == Span(o2, e2, o2, o2, e2)
    && Search(s, CreateTable, e2).None?
    && NoOuterSpace(x1) && NoOuterSpace(x2)
  }

  /** The schema of a text without an `sql` block in which `findall` finds two statements
      without outer whitespace: the two, joined by a blank line. */
  lemma ScannedTwo(s: string, o1: nat, e1: nat, o2: nat, e2: nat, x1: string, x2: string)
    requires TwoScanned(s, o1, e1, o2, e2, x1, x2)
    ensures ExtractSqlSchema(s) == x1 + "\n\n" + x2
  {
    FindAllTwo(s, CreateTable, 0, Span(o1, e1, o1, o1, e1), Span(o2, e2, o2, o2, e2));
    TwoGroups(s, o1, e1, o2, e2, x1, x2);
    JoinedTwo(x1, x2);
  }

  /** The texts of two spans whose first group is the whole match. */
  lemma TwoGroups(s: string, o1: nat, e1: nat, o2: nat, e2: nat, x1: string, x2: string)
    requires o1 < e1 <= o2 < e2 <= |s| && s[o1..e1] == x1 && s[o2..e2] == x2
    ensures Groups(s, TwoSpans(o1, e1, o2, e2)) == [x1, x2]
  {
  }

  /** The spans of two matches from `o1` to `e1` and from `o2` to `e2` whose first group is
      the whole match. */
  function TwoSpans(o1: nat, e1: nat, o2: nat, e2: nat): (r: seq<Span>)
    ensures r == [Span(o1, e1, o1, o1, e1), Span(o2, e2, o2, o2, e2)]
  {
    [Span(o1, e1, o1, o1, e1), Span(o2, e2, o2, o2, e2)]
  }

  /** Two texts without outer whitespace, joined by a blank line, are left alone by `strip`. */
  lemma JoinedTwo(a: string, b: string)
    requires a != [] && b != [] && NoOuterSpace(a) && NoOuterSpace(b)
    ensures Strip(Join("\n\n", [a, b])) == a + "\n\n" + b
  {
    assert [a, b][1..] == [b];
    var r := a + "\n\n" + b;
    assert r[0] == a[0] && r[|r| - 1] == b[|b| - 1];
  }

  /** `findall` on a text holding statements at `o1` and at `o2` and no other
      `CREATE TABLE` finds exactly those two, in order. */
  lemma TwoScan(s: string, o1: nat, n1: nat, o2: nat, n2: nat)
    requires StatementAt(s, o1, n1) && StatementAt(s, o2, n2) && o1 + 13 + n1 <= o2
    requires Clear(s, 0, o1) && Clear(s, o1 + 13 + n1, o2) && Clear(s, o2 + 13 + n2, |s|)
    ensures FindAll(s, CreateTable, 0) == TwoSpans(o1, o1 + 13 + n1, o2, o2 + 13 + n2)
  {
    var e1 := o1 + 13 + n1;
    var e2 := o2 + 13 + n2;
    StatementSearch(s, 0, o1, n1);
    StatementSearch(s, e1, o2, n2);
    NothingAfter(s, e2);
    FindAllTwo(s, CreateTable, 0, Span(o1, e1, o1, o1, e1), Span(o2, e2, o2, o2, e2));
  }

  /** A statement begins with `C` and ends with `;`, so `strip` leaves it alone. */
  lemma StatementStripped(s: string, o: nat, n: nat)
    requires StatementAt(s, o, n)
    ensures s[o] == 'C' && s[o + 12 + n] == ';' && NoOuterSpace(s[o..o + 13 + n])
  {
    assert s[o + 0] == CreateTableWords[0];
  }

  /** Where the parts of `pre + Statement(b) + post` sit, and that no other `CREATE TABLE`
      starts in the text. */
  lemma OneLayout(pre: string, b: string, post: string)
    requires '`' !in pre && '`' !in b && '`' !in post
    requires NoStatement(pre) && NoStatement(post)
    requires b != [] && ';' !in b
    ensures var s := pre + Statement(b) + post; var e := |pre| + 13 + |b|;
      && '`' !in s && StatementAt(s, |pre|, |b|) && s[|pre|..e] == Statement(b)
      && Clear(s, 0, |pre|) && Clear(s, e, |s|)
  {
    NoTickAround(pre, b, post);
    LeadLayout(pre, b, post);
    PieceClear(pre + Statement(b) + post, post, |pre| + |Statement(b)|);
  }

  /** Where a statement sits after text without `CREATE TABLE`, and what follows it. */
  lemma LeadLayout(pre: string, b: string, rest: string)
    requires NoStatement(pre) && b != [] && ';' !in b
    ensures var s := pre + Statement(b) + rest; var e := |pre| + 13 + |b|;
      && StatementAt(s, |pre|, |b|) && s[|pre|..e] == Statement(b)
      && Clear(s, 0, |pre|) && At(s, rest, e) && |s| == e + |rest|
  {
    var s := pre + Statement(b) + rest;
    Placed(pre, Statement(b), rest);
    StatementParts(s, |pre|, b);
    PieceClear(s, pre, 0);
  }

  /** A statement after text without `CREATE TABLE`, followed by a text `r` that holds a
      statement at `o` and no other `CREATE TABLE`: where both statements sit, and that no
      other `CREATE TABLE` starts in the whole text. */
  lemma TwoLayout(pre: string, b1: string, r: string, o: nat, n: nat, x: string)
    requires '`' !in pre && '`' !in b1 && '`' !in r
    requires NoStatement(pre) && b1 != [] && ';' !in b1
    requires StatementAt(r, o, n) && Clear(r, 0, o) && Clear(r, o + 13 + n, |r|) && r[o..o + 13 + n] == x
    ensures var s := pre + Statement(b1) + r; var d := |pre| + 13 + |b1|;
      && '`' !in s && StatementAt(s, |pre|, |b1|) && StatementAt(s, d + o, n)
      && s[|pre|..d] == Statement(b1) && s[d + o..d + o + 13 + n] == x
      && Clear(s, 0, |pre|) && Clear(s, d, d + o) && Clear(s, d + o + 13 + n, |s|)
  {
    NoTickAround(pre, b1, r);
    Placed(pre, Statement(b1), r);
    PlacedTwo(pre + Statement(b1) + r, pre, b1, r, o, n, x);
  }

  /** The same as `TwoLayout`, for a text `s` known only through where its parts sit. */
  lemma PlacedTwo(s: string, pre: string, b1: string, r: string, o: nat, n: nat, x: string)
    requires At(s, pre, 0) && At(s, Statement(b1), |pre|) && At(s, r, |pre| + |Statement(b1)|)
    requires |s| == |pre| + |Statement(b1)| + |r| && s[|pre|..|pre| + |Statement(b1)|] == Statement(b1)
    requires NoStatement(pre) && b1 != [] && ';' !in b1
    requires StatementAt(r, o, n) && Clear(r, 0, o) && Clear(r, o + 13 + n, |r|) && r[o..o + 13 + n] == x
    ensures var d := |pre| + 13 + |b1|;
      && StatementAt(s, |pre|, |b1|) && StatementAt(s, d + o, n)
      && s[|pre|..d] == Statement(b1) && s[d + o..d + o + 13 + n] == x
      && Clear(s, 0, |pre|) && Clear(s, d, d + o) && Clear(s, d + o + 13 + n, |s|)
  {
    StatementParts(s, |pre|, b1);
    PieceClear(s, pre, 0);
    ShiftLayout(s, r, |pre| + 13 + |b1|, o, n, x);
  }

  /** A statement between texts without backticks leaves the whole without backticks. */
  lemma NoTickAround(pre: string, b: string, post: string)
    requires '`' !in pre && '`' !in b && '`' !in post
    ensures '`' !in pre + Statement(b) + post
  {
    assert '`' !in CreateTableWords;
  }

  /** A statement, and the parts around it without `CREATE TABLE`, inside a text `r` that
      ends `s` at offset `d` sit in `s`, shifted. */
  lemma ShiftLayout(s: string, r: string, d: nat, o: nat, n: nat, x: string)
    requires At(s, r, d) && d + |r| == |s|
    requires StatementAt(r, o, n) && Clear(r, 0, o) && Clear(r, o + 13 + n, |r|) && r[o..o + 13 + n] == x
    ensures StatementAt(s, d + o, n) && s[d + o..d + o + 13 + n] == x
    ensures Clear(s, d, d + o) && Clear(s, d + o + 13 + n, |s|)
  {
    ShiftStatement(s, r, d, o, n);
    ShiftClear(s, r, d, 0, o);
    ShiftClear(s, r, d, o + 13 + n, |r|);
  }

  /** A statement inside a text `r` that ends `s` at offset `d` sits in `s`, shifted. */
  lemma ShiftStatement(s: string, r: string, d: nat, o: nat, n: nat)
    requires At(s, r, d) && StatementAt(r, o, n)
    ensures StatementAt(s, d + o, n) && s[d + o..d + o + 13 + n] == r[o..o + 13 + n]
  {
    AtWithin(s, r, d, CreateTableWords, o);
    forall k | d + o + 12 <= k < d + o + 12 + n ensures s[k] != ';' {
      assert s[d + (k - d)] == r[k - d];
    }
    assert s[d + (o + 12 + n)] == r[o + 12 + n];
    forall k | d + o <= k < d + o + 13 + n ensures s[k] == r[k - d] {
      assert s[d + (k - d)] == r[k - d];
    }
    assert s[d + o..d + o + 13 + n] == r[o..o + 13 + n];
  }

  /** Offsets of a text `r` that ends `s` at offset `d` where no `CREATE TABLE` starts
      are such offsets of `s`, shifted. */
  lemma ShiftClear(s: string, r: string, d: nat, i: nat, j: nat)
    requires At(s, r, d) && d + |r| == |s| && i <= j <= |r| && Clear(r, i, j)
    ensures Clear(s, d + i, d + j)
  {
    forall k | d + i <= k < d + j ensures !AtCaseless(s, CreateTableWords, k) {
      if k + 12 <= |s| {
        AtWithin(s, r, d, CreateTableWords, k - d);
        assert !AtCaseless(r, CreateTableWords, k - d);
      }
    }
  }

  /** Where the parts of `pre + x + post` sit. */
  lemma Placed(pre: string, x: string, post: string)
    ensures var s := pre + x + post;
      At(s, pre, 0) && At(s, x, |pre|) && At(s, post, |pre| + |x|) && s[|pre|..|pre| + |x|] == x
  {
    var s := pre + x + post;
    forall j | 0 <= j < |pre| ensures s[0 + j] == pre[j] { }
    forall j | 0 <= j < |x| ensures s[|pre| + j] == x[j] { }
    forall j | 0 <= j < |post| ensures s[|pre| + |x| + j] == post[j] { }
    assert s[|pre|..|pre| + |x|] == (pre + x)[|pre|..];
  }

  /** What a statement placed at `o` puts into the text. */
  lemma StatementParts(s: string, o: nat, b: string)
    requires At(s, Statement(b), o) && b != [] && ';' !in b
    ensures StatementAt(s, o, |b|)
  {
    var st := Statement(b);
    forall j | 0 <= j < 12 ensures s[o + j] == CreateTableWords[j] {
      assert st[j] == CreateTableWords[j];
    }
    forall k | o + 12 <= k < o + 12 + |b| ensures s[k] != ';' {
      assert s[o + (k - o)] == st[k - o] == b[k - o - 12];
    }
    assert s[o + (12 + |b|)] == st[12 + |b|];
  }

  /** The search from `i` stops at the statement placed at `o` when no `CREATE TABLE`
      starts in between, and the match runs to its semicolon. */
  lemma StatementSearch(s: string, i: nat, o: nat, n: nat)
    requires StatementAt(s, o, n) && i <= o && Clear(s, i, o)
    ensures Search(s, CreateTable, i).Some? && SearchSpan(s, CreateTable, i) == Span(o, o + 13 + n, o, o, o + 13 + n)
  {
    StatementMatch(s, o, n);
    forall k | i <= k < o ensures MatchAt(s, k, CreateTable).None? {
      assert !AtCaseless(s, CreateTableWords, k);
    }
    SearchIs(s, CreateTable, i, o);
  }

  /** Text without backticks holds no `sql` block. */
  lemma NoSqlBlock(s: string)
    requires '`' !in s
    ensures Search(s, SqlFence, 0).None?
  {
    SearchNoOpener(s, SqlFence, 0);
  }

  /** No `CREATE TABLE` ends inside a following `CREATE TABLE`: the words do not overlap
      themselves, since `C` comes only first. */
  lemma StraddleMiss(s: string, q: nat, k: nat)
    requires At(s, CreateTableWords, q) && q - 12 < k < q
    ensures !AtCaseless(s, CreateTableWords, k)
  {
    var d := q - k;
    assert s[q + 0] == CreateTableWords[0] == 'C';
    assert CreateTableWords[d] != 'C' && CreateTableWords[d] != 'c';
    assert s[k + d] == s[q];
  }

  /** A part of the text without `CREATE TABLE` that ends the text or is followed by a
      statement has no `CREATE TABLE` starting in it. */
  lemma PieceClear(s: string, x: string, o: nat)
    requires At(s, x, o) && NoStatement(x)
    requires o + |x| == |s| || At(s, CreateTableWords, o + |x|)
    ensures Clear(s, o, o + |x|)
  {
    forall k | o <= k < o + |x| ensures !AtCaseless(s, CreateTableWords, k) {
      if k + 12 <= o + |x| {
        AtWithin(s, x, o, CreateTableWords, k - o);
      } else if o + |x| < |s| {
        StraddleMiss(s, o + |x|, k);
      }
    }
  }

  /** Once no `CREATE TABLE` starts from `e` on, a search from `e` finds nothing. */
  lemma NothingAfter(s: string, e: nat)
    requires e <= |s| && Clear(s, e, |s|)
    ensures Search(s, CreateTable, e).None?
  {
    forall k | e <= k <= |s| ensures MatchAt(s, k, CreateTable).None? {
      if k < |s| {
        assert !AtCaseless(s, CreateTableWords, k);
      }
    }
    SearchAbsent(s, CreateTable, e);
  }

  /** The statement pattern at the start of `CREATE TABLE` runs to the first semicolon. */
  lemma StatementMatch(s: string, o: nat, n: nat)
    requires StatementAt(s, o, n)
    ensures MatchAt(s, o, CreateTable) == Some(Span(o, o + 13 + n, o, o, o + 13 + n))
  {
    AtIsCaseless(s, CreateTableWords, o);
    var t := o + 12;
    forall k | t <= k < t + n ensures !At(s, ";", k) {
      AtChar(s, ';', k);
    }
    AtChar(s, ';', t + n);
    IndexFromIs(s, ";", t, t + n);
  }

  /** What the agent's `process` returns: the extracted schema and the agent's name. */
  function Process(llmOutput: string): (r: map<string, Json>)
    ensures r.Keys == {"database_schema", "agent"}
    ensures r["database_schema"] == JStr(ExtractSqlSchema(llmOutput)) && r["agent"] == JStr(AgentName)
  {
    map["database_schema" := JStr(ExtractSqlSchema(llmOutput)), "agent" := JStr(AgentName)]
  }
}
