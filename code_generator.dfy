/** The backend code generator's handling of the language model's answer: the
    `requirements.txt` content it extracts, the code it keeps once the requirements blocks
    are cut out, and the rendering of the route plan it puts into its prompt. */
module CodeGenerator {
  import opened Values
  import opened Strings
  import opened Scanners
  import opened ScanFacts

  const AgentName := "code_generator"

  /** ``` `(?:txt)?:?requirements\.txt\s*\n(.*?)` ``` and three backticks: the optional
      parts are tried present before absent, so the tags in the order they are tried. */
  const RequirementsTags := ["txt:requirements.txt", "txtrequirements.txt", ":requirements.txt", "requirements.txt"]
  const RequirementsFence := Fence(RequirementsTags, false, "", Ticks)

  /** ``` `txt\s*\n(.*?requirements.*?)\n` ``` and three backticks, ignoring case. */
  const Marker := "requirements"
  const TxtFence := Fence(["txt"], true, Marker, "\n" + Ticks)

  /** The two blocks cut out of the code; the plain ``` `requirements.txt` ``` tag is not
      among them. */
  const TxtRequirementsBlock := Fence(["txt:requirements.txt"], false, "", "\n" + Ticks)
  const ColonRequirementsBlock := Fence([":requirements.txt"], false, "", "\n" + Ticks)

  const DefaultRequirements := "fastapi>=0.104.0\nuvicorn[standard]>=0.24.0\npydantic>=2.5.0\npytest>=7.0.0\n"

  /** `_extract_requirements_txt`: a requirements block, else a `txt` block mentioning
      requirements (checked again on the lowered group), else the default list. */
  function ExtractRequirementsTxt(output: string): string
  {
    if Search(output, RequirementsFence, 0).Some? then
      Strip(Group(output, SearchSpan(output, RequirementsFence, 0)))
    else if Search(output, TxtFence, 0).Some? && Contains(LowerStr(Group(output, SearchSpan(output, TxtFence, 0))), Marker) then
      Strip(Group(output, SearchSpan(output, TxtFence, 0)))
    else
      DefaultRequirements
  }

  /** The group of a `txt` block match always holds the marker, lowered: the second test
      of the fallback never fails once the pattern has matched. */
  lemma TxtGroupMentions(output: string)
    requires Search(output, TxtFence, 0).Some?
    ensures Contains(LowerStr(Group(output, SearchSpan(output, TxtFence, 0))), Marker)
  {
    var i := Search(output, TxtFence, 0).value;
    assert MatchAt(output, i, TxtFence) == MatchFence(output, i, ["txt"], 0, true, Marker, "\n" + Ticks);
    FenceMarker(output, i, ["txt"], 0, true, Marker, "\n" + Ticks);
    GroupMentions(output, SearchSpan(output, TxtFence, 0));
  }

  /** A group holding the marker, ignoring case, holds it once lowered. */
  lemma GroupMentions(s: string, sp: Span)
    requires InBounds(sp, 0, |s|)
    requires IndexFromCaseless(s, Marker, sp.g1).Some? && IndexFromCaseless(s, Marker, sp.g1).value + |Marker| <= sp.e1
    ensures Contains(LowerStr(Group(s, sp)), Marker)
  {
    LoweredContains(s, sp.g1, sp.e1, IndexFromCaseless(s, Marker, sp.g1).value, Marker);
  }

  /** The requirements are the trimmed group of the first pattern that matches, in the
      order the patterns are tried, and the default list when neither matches. */
  lemma RequirementsCascade(output: string)
    ensures var r := ExtractRequirementsTxt(output);
      && (Search(output, RequirementsFence, 0).Some? ==> r == Strip(Group(output, SearchSpan(output, RequirementsFence, 0))))
      && (Search(output, RequirementsFence, 0).None? && Search(output, TxtFence, 0).Some? ==>
            r == Strip(Group(output, SearchSpan(output, TxtFence, 0))))
      && (Search(output, RequirementsFence, 0).None? && Search(output, TxtFence, 0).None? ==> r == DefaultRequirements)
      && (r == DefaultRequirements || NoOuterSpace(r))
  {
    if Search(output, TxtFence, 0).Some? {
      TxtGroupMentions(output);
    }
  }

  /** The code kept from the answer: both requirements blocks removed, then trimmed. */
  function CodeOf(output: string): (r: string)
    ensures NoOuterSpace(r) && |r| <= |output|
    ensures Search(output, TxtRequirementsBlock, 0).None? && Search(output, ColonRequirementsBlock, 0).None? ==> r == Strip(output)
  {
    var code := Sub(output, TxtRequirementsBlock, 0);
    Strip(Sub(code, ColonRequirementsBlock, 0))
  }

  /** A `txt:requirements.txt` block between texts without backticks is cut out of the
      code, and the rest is trimmed. */
  lemma TxtRequirementsRemoved(pre: string, body: string, post: string)
    requires '`' !in pre && '`' !in post && GoodBody(body, false, "")
    ensures CodeOf(pre + Block("txt:requirements.txt", body, "\n" + Ticks) + post) == Strip(pre + post)
  {
    var s := pre + Block("txt:requirements.txt", body, "\n" + Ticks) + post;
    FenceSearch(pre, ["txt:requirements.txt"], 0, false, "", "\n" + Ticks, body, post);
    BlockLayout(pre, "txt:requirements.txt", body, "\n" + Ticks, post);
    SubOnce(s, TxtRequirementsBlock, pre, post);
    UnfencedUnchanged(pre + post, ColonRequirementsBlock);
  }

  /** A `:requirements.txt` block between texts without backticks is cut out of the code,
      and the rest is trimmed: the `txt:requirements.txt` pattern misses it, the second
      pattern removes it. */
  lemma ColonRequirementsRemoved(pre: string, body: string, post: string)
    requires '`' !in pre && '`' !in post && GoodBody(body, false, "")
    ensures CodeOf(pre + Block(":requirements.txt", body, "\n" + Ticks) + post) == Strip(pre + post)
  {
    var s := pre + Block(":requirements.txt", body, "\n" + Ticks) + post;
    var b := |pre| + 3 + 17 + 1 + |body| + 1;
    BlockTicks(pre, ":requirements.txt", body, "\n" + Ticks, post);
    RunUntagged(s, |pre|, "txt:requirements.txt");
    FenceMissesRuns(s, |pre|, b, ["txt:requirements.txt"], false, "", "\n" + Ticks);
    assert Sub(s, TxtRequirementsBlock, 0) == s;
    FenceSearch(pre, [":requirements.txt"], 0, false, "", "\n" + Ticks, body, post);
    BlockLayout(pre, ":requirements.txt", body, "\n" + Ticks, post);
    SubOnce(s, ColonRequirementsBlock, pre, post);
  }

  /** Text without backticks is left alone by a fence's `sub`. */
  lemma UnfencedUnchanged(s: string, pat: Pattern)
    requires '`' !in s && pat.Fence?
    ensures Sub(s, pat, 0) == s
  {
    SearchNoOpener(s, pat, 0);
  }

  /** The route plan as it is put into the prompt: the empty rendering `{}` for a value
      Python treats as false, otherwise the indented JSON `dumps` produces. */
  function PlanText(plan: Json, dumps: Json -> string): (r: string)
  {
    if Truthy(plan) then dumps(plan) else "{}"
  }

  /** Every false-valued plan (the empty dict and list, the empty string, zero, `0.0`,
      false and None) is rendered `{}`, whatever indented JSON would have said. */
  lemma EmptyPlanRendered(dumps: Json -> string)
    ensures PlanText(JObj(map[]), dumps) == "{}" && PlanText(JArr([]), dumps) == "{}"
    ensures PlanText(JStr(""), dumps) == "{}" && PlanText(JNum(0), dumps) == "{}" && PlanText(JFloat(0.0), dumps) == "{}"
    ensures PlanText(JBool(false), dumps) == "{}" && PlanText(JNull, dumps) == "{}"
    ensures forall plan :: Truthy(plan) ==> PlanText(plan, dumps) == dumps(plan)
  {
  }

  /** What the agent's `process` returns for the model's answer `output`. */
  function Process(output: string): (r: map<string, Json>)
    ensures r.Keys == {"code", "requirements_txt", "agent"}
    ensures r["code"] == JStr(CodeOf(output)) && r["requirements_txt"] == JStr(ExtractRequirementsTxt(output))
    ensures r["agent"] == JStr(AgentName)
  {
    Reply(CodeOf(output), ExtractRequirementsTxt(output))
  }

  /** The dict `process` builds around the code and the requirements it extracted. */
  function Reply(code: string, requirements: string): (r: map<string, Json>)
    ensures r.Keys == {"code", "requirements_txt", "agent"}
    ensures r["code"] == JStr(code) && r["requirements_txt"] == JStr(requirements) && r["agent"] == JStr(AgentName)
  {
    map["code" := JStr(code), "requirements_txt" := JStr(requirements), "agent" := JStr(AgentName)]
  }

  /** Text without backticks: the default requirements and the whole text, trimmed, as code. */
  lemma NoFenceDefaults(output: string)
    requires '`' !in output
    ensures ExtractRequirementsTxt(output) == DefaultRequirements
    ensures CodeOf(output) == Strip(output)
  {
    SearchNoOpener(output, RequirementsFence, 0);
    SearchNoOpener(output, TxtFence, 0);
    SearchNoOpener(output, TxtRequirementsBlock, 0);
    SearchNoOpener(output, ColonRequirementsBlock, 0);
  }

  /** At an offset where one requirements tag occurs, none tried before it does. */
  lemma EarlierTagsAbsent(s: string, o: nat, n: nat)
    requires n < |RequirementsTags| && At(s, Ticks + RequirementsTags[n], o)
    ensures forall j :: 0 <= j < n ==> !TagAt(s, Ticks + RequirementsTags[j], o, false)
  {
    forall j | 0 <= j < n ensures !At(s, Ticks + RequirementsTags[j], o) {
      var d := if j == 0 && n == 1 then 6 else 3;
      assert (Ticks + RequirementsTags[n])[d] != (Ticks + RequirementsTags[j])[d];
      assert s[o + d] == (Ticks + RequirementsTags[n])[d];
    }
  }

  /** A requirements block with any of the four tags, after text without backticks,
      yields its body trimmed, whatever follows. */
  lemma RequirementsBlockExtracted(pre: string, n: nat, body: string, post: string)
    requires '`' !in pre && n < |RequirementsTags| && GoodBody(body, false, "")
    ensures ExtractRequirementsTxt(pre + Block(RequirementsTags[n], body, Ticks) + post) == Strip(body)
  {
    var s := pre + Block(RequirementsTags[n], body, Ticks) + post;
    BlockLayout(pre, RequirementsTags[n], body, Ticks, post);
    EarlierTagsAbsent(s, |pre|, n);
    FenceSearch(pre, RequirementsTags, n, false, "", Ticks, body, post);
  }

  /** A block tagged plain `requirements.txt`, alone among text without backticks and
      followed by a line break or nothing, is extracted as the requirements but left in
      the code: neither removal pattern matches it. */
  lemma PlainBlockKept(pre: string, body: string, post: string)
    requires '`' !in pre && '`' !in post && GoodBody(body, false, "")
    requires post == [] || post[0] == '\n'
    ensures var s := pre + Block("requirements.txt", body, Ticks) + post;
      ExtractRequirementsTxt(s) == Strip(body) && CodeOf(s) == Strip(s)
  {
    RequirementsBlockExtracted(pre, 3, body, post);
    PlainBlockCode(pre, body, post);
  }

  /** The code part of the previous lemma. */
  lemma PlainBlockCode(pre: string, body: string, post: string)
    requires '`' !in pre && '`' !in post && GoodBody(body, false, "")
    requires post == [] || post[0] == '\n'
    ensures var s := pre + Block("requirements.txt", body, Ticks) + post; CodeOf(s) == Strip(s)
  {
    var s := pre + Block("requirements.txt", body, Ticks) + post;
    var b := |pre| + 3 + 16 + 1 + |body|;
    BlockTicks(pre, "requirements.txt", body, Ticks, post);
    assert "requirements.txt"[0] == 'r';
    RunsUntagged(s, |pre|, b, "txt:requirements.txt");
    RunsUntagged(s, |pre|, b, ":requirements.txt");
    RemovalMisses(s, |pre|, b);
  }

  /** A `txt` block mentioning requirements, alone among text without backticks and
      followed by a line break or nothing, is what the fallback extracts, and it is left
      in the code as well. */
  lemma TxtBlockExtracted(pre: string, body: string, post: string)
    requires '`' !in pre && '`' !in post && GoodBody(body, true, Marker)
    requires post == [] || post[0] == '\n'
    ensures var s := pre + Block("txt", body, "\n" + Ticks) + post;
      ExtractRequirementsTxt(s) == Strip(body) && CodeOf(s) == Strip(s)
  {
    var s := pre + Block("txt", body, "\n" + Ticks) + post;
    var b := |pre| + 3 + 3 + 1 + |body| + 1;
    BlockTicks(pre, "txt", body, "\n" + Ticks, post);
    TxtBlockOpens(pre, body, post);
    TxtRunsUntagged(s, |pre|, b);
    RemovalMisses(s, |pre|, b);
    FenceSearch(pre, ["txt"], 0, true, Marker, "\n" + Ticks, body, post);
    RequirementsCascade(s);
  }

  /** A `txt` block's opening run is followed by `txt` and a line break. */
  lemma TxtBlockOpens(pre: string, body: string, post: string)
    ensures var s := pre + Block("txt", body, "\n" + Ticks) + post;
      |pre| + 6 < |s| && s[|pre| + 3] == 't' && s[|pre| + 6] == '\n'
  {
    BlockLayout(pre, "txt", body, "\n" + Ticks, post);
    var s := pre + Block("txt", body, "\n" + Ticks) + post;
    assert s[|pre| + 3 + 0] == "txt"[0];
  }

  /** In a text whose backticks are the runs of a `txt` block, followed by a line break or
      nothing, no requirements tag follows either run, so the requirements pattern fails
      and neither removal tag follows the opening run. */
  lemma TxtRunsUntagged(s: string, a: nat, b: nat)
    requires TickRuns(s, a, b) && a + 6 < |s| && s[a + 3] == 't' && s[a + 6] == '\n'
    requires b + 3 == |s| || s[b + 3] == '\n'
    ensures Search(s, RequirementsFence, 0).None?
    ensures !TagAt(s, Ticks + "txt:requirements.txt", a, false) && !TagAt(s, Ticks + ":requirements.txt", a, false)
  {
    forall j | 0 <= j < |RequirementsTags|
      ensures |RequirementsTags[j]| > 0
      ensures !TagAt(s, Ticks + RequirementsTags[j], a, false) && !TagAt(s, Ticks + RequirementsTags[j], b, false)
    {
      RequirementsTagShape(j);
      TxtTagMismatch(s, a, RequirementsTags[j]);
      RunUntagged(s, b, RequirementsTags[j]);
    }
    FenceMissesRuns(s, a, b, RequirementsTags, false, "", Ticks);
    TxtTagMismatch(s, a, "txt:requirements.txt");
    TxtTagMismatch(s, a, ":requirements.txt");
  }

  /** Each requirements tag is one of the list and starts with something other than a
      line break. */
  lemma RequirementsTagShape(j: nat)
    requires j < |RequirementsTags|
    ensures RequirementsTags[j] in RequirementsTags
    ensures |RequirementsTags[j]| > 0 && RequirementsTags[j][0] != '\n'
  {
  }

  /** In a text whose backticks form two runs, with neither removal tag after the first
      and a line break or the end after the second, nothing is removed from the code. */
  lemma RemovalMisses(s: string, a: nat, b: nat)
    requires TickRuns(s, a, b) && (b + 3 == |s| || s[b + 3] == '\n')
    requires !TagAt(s, Ticks + "txt:requirements.txt", a, false) && !TagAt(s, Ticks + ":requirements.txt", a, false)
    ensures CodeOf(s) == Strip(s)
  {
    RunUntagged(s, b, "txt:requirements.txt");
    RunUntagged(s, b, ":requirements.txt");
    FenceMissesRuns(s, a, b, ["txt:requirements.txt"], false, "", "\n" + Ticks);
    FenceMissesRuns(s, a, b, [":requirements.txt"], false, "", "\n" + Ticks);
  }

  /** After the opening run of a `requirements.txt` block and after a closing run followed
      by a line break or the end, no tag starting with `t` or `:` occurs. */
  lemma RunsUntagged(s: string, a: nat, b: nat, tag: string)
    requires a + 3 < |s| && s[a + 3] == 'r' && b + 3 <= |s| && (b + 3 == |s| || s[b + 3] == '\n')
    requires |tag| > 0 && (tag[0] == 't' || tag[0] == ':')
    ensures !TagAt(s, Ticks + tag, a, false) && !TagAt(s, Ticks + tag, b, false)
  {
    RunUntagged(s, b, tag);
    assert (Ticks + tag)[3] == tag[0];
  }

  /** After the opening run of a `txt` block (`txt` then a line break), none of the tags
      the requirements and removal patterns look for occurs. */
  lemma TxtTagMismatch(s: string, a: nat, tag: string)
    requires a + 6 < |s| && s[a + 3] == 't' && s[a + 6] == '\n'
    requires tag in RequirementsTags || tag == "txt:requirements.txt" || tag == ":requirements.txt"
    ensures !TagAt(s, Ticks + tag, a, false)
  {
    var d := if tag[0] == 't' then 6 else 3;
    assert (Ticks + tag)[d] == tag[d - 3];
  }
}
