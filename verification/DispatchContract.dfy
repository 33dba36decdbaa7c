/** The typed dispatch contract of sub-agent tools (src/agents/sub-agent-dispatch-contract.ts):
    canonical descriptors, the parser that accepts them, and the comparison that ties an execution to
    its reservation. */
module DispatchContract {
  import opened Sequences
  import opened Sorting
  import opened CanonicalJson

  datatype Mode = Llm | LocalFileWrite | LocalScan
  datatype Tool = SpawnAgent | ParallelAgents

  datatype Execution = Execution(mode: Mode, readOnly: bool, writeTargets: seq<Text>, externalResourceKeys: seq<Text>)
  datatype Branch = Branch(branchId: Text, execution: Execution)
  datatype Invocation = Invocation(toolName: Tool, branches: seq<Branch>)

  /** Untyped input: `None` where the value is absent or of another type. Targets and keys may come under
      either of two names; each field here is the one the parser picks, the snake-case name first. */
  datatype RawExecution = RawExecution(
    mode: Option<Mode>,
    read_only: Option<bool>,
    readOnly: Option<bool>,
    writeTargets: Option<seq<Text>>,
    externalResourceKeys: Option<seq<Text>>)

  datatype RawBranch = RawBranch(
    branch_id: Option<Text>,
    id: Option<Text>,
    mode: Option<Text>,
    read_only: Option<bool>,
    file_path: Option<Text>,
    execution: Option<RawExecution>)

  /** The host's string operations: `trim`, `path.resolve` against the working directory, and the
      comparison `sort` uses for branch ids. */
  datatype Host = Host(trim: Text -> Text, resolve: Text -> Text, idLeq: (Text, Text) -> bool)

  ghost predicate TotalOrder(leq: (Text, Text) -> bool) {
    TotalPreorder(leq) && forall x, y :: leq(x, y) && leq(y, x) ==> x == y
  }

  // ---------------------------------------------------------------- canonical string lists

  function Map(values: seq<Text>, f: Text -> Text): (r: seq<Text>)
    ensures |r| == |values| && forall i :: 0 <= i < |r| ==> r[i] == f(values[i])
  {
    seq(|values|, i requires 0 <= i < |values| => f(values[i]))
  }

  function CanonicalStrings(values: Option<seq<Text>>, normalize: Text -> Text): Option<seq<Text>> {
    match values
    case None => None
    case Some(vs) =>
      var canonical := Filter(Map(vs, normalize), t => t != []);
      if |canonical| != |vs| || !Distinct(canonical) then None else Some(SortBy(canonical, LexLeq))
  }

  ghost predicate Canonical(s: seq<Text>) {
    Distinct(s) && Sorted(s, LexLeq) && [] !in s
  }

  lemma LexIsPreorder()
    ensures TotalPreorder(LexLeq)
  {
    forall a, b ensures LexLeq(a, b) || LexLeq(b, a) { LexTotal(a, b); }
    forall a, b, c | LexLeq(a, b) && LexLeq(b, c) ensures LexLeq(a, c) { LexTransitive(a, b, c); }
  }

  /** A list is accepted exactly when no normalised value is blank and none repeats; what comes out is
      the canonical arrangement of the normalised values. */
  lemma CanonicalStringsExactly(vs: seq<Text>, normalize: Text -> Text)
    ensures var r := CanonicalStrings(Some(vs), normalize);
      && (r.Some? <==> [] !in Map(vs, normalize) && Distinct(Map(vs, normalize)))
      && (r.Some? ==> Canonical(r.value) && Elements(r.value) == Elements(Map(vs, normalize)))
  {
    var mapped := Map(vs, normalize);
    var keep := (t: Text) => t != [];
    var kept := Filter(mapped, keep);
    if [] in mapped {
      FilterShorter(mapped, keep);
    } else {
      FilterAll(mapped, keep);
      LexIsPreorder();
      SortBySorts(kept, LexLeq);
      if Distinct(kept) { SortByDistinct(kept, LexLeq); }
    }
  }

  /** Canonical lists are equal exactly when they hold the same values. */
  lemma CanonicalListsAreSets(a: seq<Text>, b: seq<Text>)
    requires Canonical(a) && Canonical(b)
    ensures a == b <==> Elements(a) == Elements(b)
  {
    if Elements(a) == Elements(b) {
      forall x ensures x in a <==> x in b {
        assert x in a <==> x in Elements(a);
        assert x in b <==> x in Elements(b);
      }
      SameElements(a, b);
      forall x, y | x in a && y in a && LexLeq(x, y) && LexLeq(y, x) ensures x == y {
        LexAntisymmetric(x, y);
      }
      SortedIsUnique(a, b, LexLeq);
    }
  }

  // ---------------------------------------------------------------- the parser

  /** How a write target is normalised. */
  function Target(host: Host): Text -> Text {
    t => host.resolve(host.trim(t))
  }

  function NormalizeExecution(raw: Option<RawExecution>, host: Host): Option<Execution> {
    if raw.None? || raw.value.mode.None? then None
    else if raw.value.read_only.None? && raw.value.readOnly.None? then None
    else
      var targets := CanonicalStrings(raw.value.writeTargets, Target(host));
      var keys := CanonicalStrings(raw.value.externalResourceKeys, host.trim);
      if targets.None? || keys.None? then None
      else Some(Execution(raw.value.mode.value,
                          raw.value.read_only == Some(true) || raw.value.readOnly == Some(true),
                          targets.value, keys.value))
  }

  /** `executionDescriptorIssue`: true when there is none. */
  predicate NoIssue(d: Execution, tool: Tool) {
    && !(tool == ParallelAgents && d.mode == LocalFileWrite)
    && !(tool == SpawnAgent && d.mode == LocalScan)
    && !(d.mode == Llm && !d.readOnly)
    && !(d.mode == LocalScan && (!d.readOnly || |d.writeTargets| > 0))
    && !(d.mode == LocalFileWrite && (d.readOnly || |d.writeTargets| != 1 || |d.externalResourceKeys| > 0))
    && !(d.readOnly && |d.writeTargets| > 0)
  }

  function ModeName(m: Mode): Text {
    match m
    case Llm => [108, 108, 109]
    case LocalFileWrite => [108, 111, 99, 97, 108, 95, 102, 105, 108, 101, 95, 119, 114, 105, 116, 101]
    case LocalScan => [108, 111, 99, 97, 108, 95, 115, 99, 97, 110]
  }

  function ParseBranch(tool: Tool, raw: RawBranch, host: Host): Option<Branch> {
    var branchId := if raw.branch_id.Some? then host.trim(raw.branch_id.value) else [];
    var execution := NormalizeExecution(raw.execution, host);
    if branchId == [] || execution.None? || !NoIssue(execution.value, tool) then None
    else if tool == ParallelAgents && raw.id != Some(branchId) then None
    else if ModeName(execution.value.mode) != (if raw.mode.Some? then raw.mode.value else ModeName(Llm)) then None
    else if tool == ParallelAgents && raw.read_only != Some(true) then None
    else if tool == SpawnAgent && raw.read_only != Some(execution.value.readOnly) then None
    else if execution.value.mode == LocalFileWrite
      && CanonicalStrings(if raw.file_path.Some? then Some([raw.file_path.value]) else None, Target(host))
         != Some(execution.value.writeTargets) then None
    else Some(Branch(branchId, execution.value))
  }

  function BranchIds(branches: seq<Branch>): (ids: seq<Text>)
    ensures |ids| == |branches| && forall i :: 0 <= i < |ids| ==> ids[i] == branches[i].branchId
  {
    seq(|branches|, i requires 0 <= i < |branches| => branches[i].branchId)
  }

  /** What holds of every invocation the parser accepts. */
  ghost predicate Accepted(inv: Invocation) {
    && inv.branches != []
    && Distinct(BranchIds(inv.branches))
    && (forall b :: b in inv.branches ==>
          && b.branchId != []
          && Canonical(b.execution.writeTargets) && Canonical(b.execution.externalResourceKeys)
          && NoIssue(b.execution, inv.toolName))
  }

  lemma ParsedIsCanonical(tool: Tool, raw: RawBranch, host: Host)
    requires ParseBranch(tool, raw, host).Some?
    ensures var b := ParseBranch(tool, raw, host).value;
      && b.branchId != [] && NoIssue(b.execution, tool)
      && Canonical(b.execution.writeTargets) && Canonical(b.execution.externalResourceKeys)
  {
    hide Canonical, SortBy;
    var e := raw.execution.value;
    CanonicalStringsExactly(e.writeTargets.value, Target(host));
    CanonicalStringsExactly(e.externalResourceKeys.value, host.trim);
  }

  /** What each mode allows, and where: a language model runs anywhere but only to read; a local scan runs in
      parallel and only to read; a local file write runs alone, names its one target and no resource. */
  lemma ModesAllow(d: Execution, tool: Tool)
    ensures NoIssue(d, tool) <==>
      match d.mode
      case Llm => d.readOnly && d.writeTargets == []
      case LocalScan => tool == ParallelAgents && d.readOnly && d.writeTargets == []
      case LocalFileWrite => tool == SpawnAgent && !d.readOnly && |d.writeTargets| == 1 && d.externalResourceKeys == []
  {
  }

  /** A list of strings is given, and its normalised values are neither blank nor repeated. */
  ghost predicate Listed(values: Option<seq<Text>>, normalize: Text -> Text) {
    values.Some? && [] !in Map(values.value, normalize) && Distinct(Map(values.value, normalize))
  }

  /** `d` is what the raw execution describes: each field from its own source, the lists as sets. */
  ghost predicate Describes(raw: RawExecution, d: Execution, host: Host) {
    && raw.mode == Some(d.mode)
    && (raw.read_only.Some? || raw.readOnly.Some?)
    && (d.readOnly <==> raw.read_only == Some(true) || raw.readOnly == Some(true))
    && Listed(raw.writeTargets, Target(host)) && Canonical(d.writeTargets)
    && Elements(d.writeTargets) == Elements(Map(raw.writeTargets.value, Target(host)))
    && Listed(raw.externalResourceKeys, host.trim) && Canonical(d.externalResourceKeys)
    && Elements(d.externalResourceKeys) == Elements(Map(raw.externalResourceKeys.value, host.trim))
  }

  /** The parameters a branch would run with are those its description declares. */
  ghost predicate RunsAsDeclared(tool: Tool, raw: RawBranch, b: Branch, host: Host) {
    && (if raw.mode.Some? then raw.mode.value else ModeName(Llm)) == ModeName(b.execution.mode)
    && raw.read_only == Some(b.execution.readOnly)
    && (tool == ParallelAgents ==> raw.id == Some(b.branchId))
    && (b.execution.mode == LocalFileWrite ==>
          raw.file_path.Some? && b.execution.writeTargets == [Target(host)(raw.file_path.value)])
  }

  lemma DescribedOnce(raw: RawExecution, d: Execution, d': Execution, host: Host)
    requires Describes(raw, d, host) && Describes(raw, d', host)
    ensures d == d'
  {
    hide Canonical, Listed;
    CanonicalListsAreSets(d.writeTargets, d'.writeTargets);
    CanonicalListsAreSets(d.externalResourceKeys, d'.externalResourceKeys);
  }

  lemma NormalizedDescribes(raw: RawExecution, host: Host)
    ensures NormalizeExecution(Some(raw), host).Some? ==>
      Describes(raw, NormalizeExecution(Some(raw), host).value, host)
    ensures (raw.mode.Some? && (raw.read_only.Some? || raw.readOnly.Some?)
             && Listed(raw.writeTargets, Target(host)) && Listed(raw.externalResourceKeys, host.trim)) ==>
      NormalizeExecution(Some(raw), host).Some?
  {
    hide Canonical, SortBy, Distinct, Map, Filter, CanonicalStrings;
    if raw.writeTargets.Some? { CanonicalStringsExactly(raw.writeTargets.value, Target(host)); }
    if raw.externalResourceKeys.Some? { CanonicalStringsExactly(raw.externalResourceKeys.value, host.trim); }
    NoListNoStrings(raw, host);
  }

  lemma NoListNoStrings(raw: RawExecution, host: Host)
    ensures raw.writeTargets.None? ==> CanonicalStrings(raw.writeTargets, Target(host)).None?
    ensures raw.externalResourceKeys.None? ==> CanonicalStrings(raw.externalResourceKeys, host.trim).None?
  {
  }

  /** The target of a file write is checked against the path it would write. */
  lemma OneTarget(path: Option<Text>, targets: seq<Text>, host: Host)
    requires |targets| == 1 && [] !in targets
    ensures CanonicalStrings(if path.Some? then Some([path.value]) else None, Target(host)) == Some(targets) <==>
            path.Some? && targets == [Target(host)(path.value)]
  {
    assert targets[0] in targets;
    if path.Some? {
      var mapped := Map([path.value], Target(host));
      assert mapped == [Target(host)(path.value)];
      assert mapped[1..] == [] && mapped[..0] == [];
      var sorted := SortBy(mapped, LexLeq);
      assert sorted[0] in mapped;
      assert sorted == mapped;
    }
  }

  /** The parser accepts a branch exactly when it has an id, is described in full, is allowed by its mode, and
      would run as declared; and what comes out is its id and its description. */
  lemma ParsedExactly(tool: Tool, raw: RawBranch, host: Host, b: Branch)
    ensures ParseBranch(tool, raw, host) == Some(b) <==>
      && raw.branch_id.Some? && b.branchId == host.trim(raw.branch_id.value) && b.branchId != []
      && raw.execution.Some? && Describes(raw.execution.value, b.execution, host)
      && NoIssue(b.execution, tool) && RunsAsDeclared(tool, raw, b, host)
  {
    hide Describes, NormalizeExecution, CanonicalStrings, Target, Distinct, Canonical, Listed, ModeName;
    if raw.execution.Some? {
      NormalizedDescribes(raw.execution.value, host);
      var n := NormalizeExecution(raw.execution, host);
      DescribedIsNormalized(raw.execution.value, b.execution, host);
      if n.Some? && NoIssue(n.value, tool) && n.value.mode == LocalFileWrite {
        DescribedTargets(raw.execution.value, n.value, host);
        OneTarget(raw.file_path, n.value.writeTargets, host);
      }
      ModesAllow(b.execution, tool);
    } else {
      NothingDescribed(host);
    }
  }

  lemma NothingDescribed(host: Host)
    ensures NormalizeExecution(None, host).None?
  {
  }

  lemma DescribedTargets(raw: RawExecution, d: Execution, host: Host)
    requires Describes(raw, d, host)
    ensures [] !in d.writeTargets
  {
  }

  lemma DescribedIsNormalized(raw: RawExecution, d: Execution, host: Host)
    ensures Describes(raw, d, host) <==> NormalizeExecution(Some(raw), host) == Some(d)
  {
    hide Canonical, CanonicalStrings, NormalizeExecution;
    NormalizedDescribes(raw, host);
    var n := NormalizeExecution(Some(raw), host);
    if Describes(raw, d, host) {
      hide Listed;
      assert n.Some?;
      DescribedOnce(raw, d, n.value, host);
    }
  }

  /** Accepts exactly the nonempty lists of acceptable branches with distinct ids, in order. */
  method Parse(tool: Tool, rawBranches: seq<RawBranch>, host: Host) returns (invocation: Option<Invocation>)
    ensures invocation.Some? <==>
      && rawBranches != []
      && (forall i :: 0 <= i < |rawBranches| ==> ParseBranch(tool, rawBranches[i], host).Some?)
      && (forall i, j :: 0 <= i < j < |rawBranches| ==>
            ParseBranch(tool, rawBranches[i], host).Some? && ParseBranch(tool, rawBranches[j], host).Some? ==>
              ParseBranch(tool, rawBranches[i], host).value.branchId
              != ParseBranch(tool, rawBranches[j], host).value.branchId)
    ensures invocation.Some? ==>
      && Accepted(invocation.value) && invocation.value.toolName == tool
      && |invocation.value.branches| == |rawBranches|
      && forall i :: 0 <= i < |rawBranches| ==>
           Some(invocation.value.branches[i]) == ParseBranch(tool, rawBranches[i], host)
  {
    hide ParseBranch, Canonical, NoIssue;
    var branches: seq<Branch> := [];
    for i := 0 to |rawBranches|
      invariant |branches| == i
      invariant forall k :: 0 <= k < i ==> ParseBranch(tool, rawBranches[k], host) == Some(branches[k])
      invariant forall b :: b in branches ==>
        && b.branchId != [] && NoIssue(b.execution, tool)
        && Canonical(b.execution.writeTargets) && Canonical(b.execution.externalResourceKeys)
    {
      var branch := ParseBranch(tool, rawBranches[i], host);
      if branch.None? { return None; }
      ParsedIsCanonical(tool, rawBranches[i], host);
      branches := branches + [branch.value];
    }
    var ids := BranchIds(branches);
    if branches == [] || !Distinct(ids) {
      return None;
    }
    return Some(Invocation(tool, branches));
  }

  // ---------------------------------------------------------------- comparing invocations

  function Texts(values: seq<Text>): (r: Json)
    ensures r.Arr? && |r.items| == |values| && forall i :: 0 <= i < |values| ==> r.items[i] == Str(values[i])
  {
    Arr(seq(|values|, i requires 0 <= i < |values| => Str(values[i])))
  }

  const MODE: Text := [109, 111, 100, 101]
  const READ_ONLY: Text := [114, 101, 97, 100, 79, 110, 108, 121]
  const WRITE_TARGETS: Text := [119, 114, 105, 116, 101, 84, 97, 114, 103, 101, 116, 115]
  const RESOURCE_KEYS: Text :=
    [101, 120, 116, 101, 114, 110, 97, 108, 82, 101, 115, 111, 117, 114, 99, 101, 75, 101, 121, 115]
  const BRANCH_ID: Text := [98, 114, 97, 110, 99, 104, 73, 100]
  const EXECUTION: Text := [101, 120, 101, 99, 117, 116, 105, 111, 110]
  const TOOL_NAME: Text := [116, 111, 111, 108, 78, 97, 109, 101]
  const BRANCHES: Text := [98, 114, 97, 110, 99, 104, 101, 115]

  function ExecutionJson(e: Execution): Json {
    Obj([Field(MODE, Str(ModeName(e.mode))), Field(READ_ONLY, Bool(e.readOnly)),
         Field(WRITE_TARGETS, Texts(e.writeTargets)), Field(RESOURCE_KEYS, Texts(e.externalResourceKeys))])
  }

  function BranchJson(b: Branch): Json {
    Obj([Field(BRANCH_ID, Str(b.branchId)), Field(EXECUTION, ExecutionJson(b.execution))])
  }

  function BranchesJson(branches: seq<Branch>): (r: Json)
    ensures r.Arr? && |r.items| == |branches|
    ensures forall i :: 0 <= i < |branches| ==> r.items[i] == BranchJson(branches[i])
  {
    Arr(seq(|branches|, i requires 0 <= i < |branches| => BranchJson(branches[i])))
  }

  function ToolName(t: Tool): Text {
    match t
    case SpawnAgent => [115, 112, 97, 119, 110, 95, 97, 103, 101, 110, 116]
    case ParallelAgents => [112, 97, 114, 97, 108, 108, 101, 108, 95, 97, 103, 101, 110, 116, 115]
  }

  function InvocationJson(inv: Invocation): Json {
    Obj([Field(TOOL_NAME, Str(ToolName(inv.toolName))), Field(BRANCHES, BranchesJson(inv.branches))])
  }

  function ById(idLeq: (Text, Text) -> bool): (Branch, Branch) -> bool {
    (a: Branch, b: Branch) => idLeq(a.branchId, b.branchId)
  }

  function Ordered(inv: Invocation, idLeq: (Text, Text) -> bool): Invocation {
    inv.(branches := SortBy(inv.branches, ById(idLeq)))
  }

  /** `sameSubAgentDispatchInvocation`: compare the JSON texts after sorting branches by id. */
  predicate SameInvocation(left: Invocation, right: Invocation, idLeq: (Text, Text) -> bool) {
    Print(InvocationJson(Ordered(left, idLeq))) == Print(InvocationJson(Ordered(right, idLeq)))
  }

  ghost predicate SameExecution(a: Execution, b: Execution) {
    && a.mode == b.mode && a.readOnly == b.readOnly
    && Elements(a.writeTargets) == Elements(b.writeTargets)
    && Elements(a.externalResourceKeys) == Elements(b.externalResourceKeys)
  }

  ghost predicate Answers(b: Branch, others: seq<Branch>) {
    exists c :: c in others && c.branchId == b.branchId && SameExecution(b.execution, c.execution)
  }

  /** Equality that sees neither the order of branches nor the order of targets and keys. */
  ghost predicate OrderFreeEqual(left: Invocation, right: Invocation) {
    && left.toolName == right.toolName
    && (forall b :: b in left.branches ==> Answers(b, right.branches))
    && (forall c :: c in right.branches ==> Answers(c, left.branches))
  }

  // the JSON text determines the invocation

  lemma ExecutionJsonInjective(a: Execution, b: Execution)
    ensures Valid(ExecutionJson(a))
    ensures ExecutionJson(a) == ExecutionJson(b) ==> a == b
  {
    if ExecutionJson(a) == ExecutionJson(b) {
      TextsInjective(a.writeTargets, b.writeTargets);
      TextsInjective(a.externalResourceKeys, b.externalResourceKeys);
      var fa, fb := ExecutionJson(a).fields, ExecutionJson(b).fields;
      assert fa[0] == fb[0] && fa[1] == fb[1] && fa[2] == fb[2] && fa[3] == fb[3];
      assert |ModeName(a.mode)| == |ModeName(b.mode)|;
    }
    var f := ExecutionJson(a).fields;
    assert |f[0].key| == 4 && |f[1].key| == 8 && |f[2].key| == 12 && |f[3].key| == 20;
  }

  lemma TextsInjective(a: seq<Text>, b: seq<Text>)
    ensures Texts(a) == Texts(b) ==> a == b
  {
    if Texts(a) == Texts(b) {
      assert |a| == |b|;
      forall i | 0 <= i < |a| ensures a[i] == b[i] {
        assert Texts(a).items[i] == Texts(b).items[i];
      }
    }
  }

  lemma BranchJsonInjective(a: Branch, b: Branch)
    ensures Valid(BranchJson(a))
    ensures BranchJson(a) == BranchJson(b) ==> a == b
  {
    ExecutionJsonInjective(a.execution, b.execution);
    var fa, fb := BranchJson(a).fields, BranchJson(b).fields;
    assert fa[0] == Field(BRANCH_ID, Str(a.branchId)) && fa[1] == Field(EXECUTION, ExecutionJson(a.execution));
    assert fb[0] == Field(BRANCH_ID, Str(b.branchId)) && fb[1] == Field(EXECUTION, ExecutionJson(b.execution));
    assert |fa[0].key| == 8 && |fa[1].key| == 9;
  }

  lemma InvocationJsonInjective(a: Invocation, b: Invocation)
    ensures Valid(InvocationJson(a))
    ensures InvocationJson(a) == InvocationJson(b) ==> a == b
  {
    hide BranchJson;
    var fa, fb := InvocationJson(a).fields, InvocationJson(b).fields;
    assert fa[0] == Field(TOOL_NAME, Str(ToolName(a.toolName))) && fa[1] == Field(BRANCHES, BranchesJson(a.branches));
    assert fb[0] == Field(TOOL_NAME, Str(ToolName(b.toolName))) && fb[1] == Field(BRANCHES, BranchesJson(b.branches));
    assert |fa[0].key| == |fa[1].key| == 8 && fa[0].key[0] == 116 && fa[1].key[0] == 98;
    forall x | x in BranchesJson(a.branches).items ensures Valid(x) {
      var i :| 0 <= i < |a.branches| && BranchesJson(a.branches).items[i] == x;
      BranchJsonInjective(a.branches[i], a.branches[i]);
    }
    if InvocationJson(a) == InvocationJson(b) {
      assert |ToolName(a.toolName)| == |ToolName(b.toolName)|;
      assert |a.branches| == |b.branches|;
      forall i | 0 <= i < |a.branches| ensures a.branches[i] == b.branches[i] {
        assert BranchesJson(a.branches).items[i] == BranchesJson(b.branches).items[i];
        BranchJsonInjective(a.branches[i], b.branches[i]);
      }
    }
  }

  lemma ByIdIsPreorder(idLeq: (Text, Text) -> bool)
    requires TotalPreorder(idLeq)
    ensures TotalPreorder(ById(idLeq))
  {
    var leq := ById(idLeq);
    forall a, b ensures leq(a, b) || leq(b, a) {
      assert idLeq(a.branchId, b.branchId) || idLeq(b.branchId, a.branchId);
    }
    forall a, b, c | leq(a, b) && leq(b, c) ensures leq(a, c) {
      Transitive(idLeq, a.branchId, b.branchId, c.branchId);
    }
  }

  /** Whatever two invocations hold, the comparison is exactly this: the same tool, and for every id the
      branches whose ids compare equal to it are the same, in the same order. */
  lemma MatchingExactly(left: Invocation, right: Invocation, idLeq: (Text, Text) -> bool)
    requires TotalPreorder(idLeq)
    ensures SameInvocation(left, right, idLeq) <==>
      left.toolName == right.toolName && TiesAgree(left.branches, right.branches, ById(idLeq))
  {
    hide Print, InvocationJson, SortBy, TiesAgree, TotalPreorder, ById;
    var l, r := Ordered(left, idLeq), Ordered(right, idLeq);
    InvocationJsonInjective(l, r);
    InvocationJsonInjective(r, l);
    PrintInjective(InvocationJson(l), InvocationJson(r));
    ByIdIsPreorder(idLeq);
    StableSortsAgree(left.branches, right.branches, ById(idLeq));
  }

  lemma DistinctIds(branches: seq<Branch>, a: Branch, b: Branch)
    requires Distinct(BranchIds(branches)) && a in branches && b in branches && a.branchId == b.branchId
    ensures a == b
  {
    var i :| 0 <= i < |branches| && branches[i] == a;
    var j :| 0 <= j < |branches| && branches[j] == b;
    assert BranchIds(branches)[i] == BranchIds(branches)[j];
  }

  lemma DistinctFromIds(branches: seq<Branch>)
    requires Distinct(BranchIds(branches))
    ensures Distinct(branches)
  {
    forall i, j | 0 <= i < j < |branches| ensures branches[i] != branches[j] {
      assert BranchIds(branches)[i] != BranchIds(branches)[j];
    }
  }

  lemma AnswersIsMembership(b: Branch, others: seq<Branch>)
    requires Canonical(b.execution.writeTargets) && Canonical(b.execution.externalResourceKeys)
    requires forall c :: c in others ==>
      Canonical(c.execution.writeTargets) && Canonical(c.execution.externalResourceKeys)
    ensures Answers(b, others) <==> b in others
  {
    hide Canonical;
    forall c | c in others && c.branchId == b.branchId && SameExecution(b.execution, c.execution) ensures b == c {
      CanonicalListsAreSets(b.execution.writeTargets, c.execution.writeTargets);
      CanonicalListsAreSets(b.execution.externalResourceKeys, c.execution.externalResourceKeys);
    }
  }

  ghost predicate SameBranches(left: seq<Branch>, right: seq<Branch>) {
    forall b :: b in left <==> b in right
  }

  lemma OrderFreeIsSameBranches(left: Invocation, right: Invocation)
    requires Accepted(left) && Accepted(right)
    ensures OrderFreeEqual(left, right) <==>
      left.toolName == right.toolName && SameBranches(left.branches, right.branches)
  {
    hide Canonical, NoIssue, Answers;
    forall b | b in left.branches ensures Answers(b, right.branches) <==> b in right.branches {
      AnswersIsMembership(b, right.branches);
    }
    forall c | c in right.branches ensures Answers(c, left.branches) <==> c in left.branches {
      AnswersIsMembership(c, left.branches);
    }
  }

  /** Branches with ids that compare equal come in the same order of ids. */
  ghost predicate SameTies(left: seq<Branch>, right: seq<Branch>, leq: (Branch, Branch) -> bool) {
    forall b :: BranchIds(Filter(left, TiedWith(leq, b))) == BranchIds(Filter(right, TiedWith(leq, b)))
  }

  lemma TiesAgreeSplits(left: seq<Branch>, right: seq<Branch>, leq: (Branch, Branch) -> bool)
    requires Distinct(BranchIds(left)) && TotalPreorder(leq)
    ensures TiesAgree(left, right, leq) <==> SameBranches(left, right) && SameTies(left, right, leq)
  {
    if TiesAgree(left, right, leq) {
      forall b ensures b in left <==> b in right {
        var tied := TiedWith(leq, b);
        assert tied(b);
        assert Filter(left, tied) == Filter(right, tied);
        assert b in left <==> b in Filter(left, tied);
      }
    }
    if SameBranches(left, right) && SameTies(left, right, leq) {
      forall b ensures Filter(left, TiedWith(leq, b)) == Filter(right, TiedWith(leq, b)) {
        var f, g := Filter(left, TiedWith(leq, b)), Filter(right, TiedWith(leq, b));
        assert BranchIds(f) == BranchIds(g);
        forall i | 0 <= i < |f| ensures f[i] == g[i] {
          assert f[i] in f && g[i] in g && BranchIds(f)[i] == BranchIds(g)[i];
          DistinctIds(left, f[i], g[i]);
        }
      }
    }
  }

  lemma TiedMeansSameId(idLeq: (Text, Text) -> bool, a: Branch, b: Branch)
    requires TotalOrder(idLeq) && TiedWith(ById(idLeq), a)(b)
    ensures a.branchId == b.branchId
  {
  }

  lemma NoTies(left: seq<Branch>, right: seq<Branch>, idLeq: (Text, Text) -> bool)
    requires TotalOrder(idLeq) && Distinct(BranchIds(left)) && Distinct(BranchIds(right)) && SameBranches(left, right)
    ensures SameTies(left, right, ById(idLeq))
  {
    DistinctFromIds(left);
    DistinctFromIds(right);
    forall b ensures Filter(left, TiedWith(ById(idLeq), b)) == Filter(right, TiedWith(ById(idLeq), b)) {
      var tied := TiedWith(ById(idLeq), b);
      var f, g := Filter(left, tied), Filter(right, tied);
      FilterDistinct(left, tied);
      FilterDistinct(right, tied);
      forall x | x in f ensures x.branchId == b.branchId { TiedMeansSameId(idLeq, b, x); }
      hide TotalOrder, TiedWith, ById;
      forall x, y | x in f && y in f ensures x == y { DistinctIds(left, x, y); }
      AtMostOne(f, g);
    }
  }

  lemma AtMostOne(f: seq<Branch>, g: seq<Branch>)
    requires Distinct(f) && Distinct(g) && forall x :: x in f <==> x in g
    requires forall x, y :: x in f && y in f ==> x == y
    ensures f == g
  {
    SameElements(f, g);
    SameLength(f, g);
    forall i | 0 <= i < |f| ensures f[i] == g[i] {
      assert f[i] in f && g[i] in g;
    }
  }

  /** For invocations the parser accepts, the comparison is order-free equality exactly up to ids that
      compare equal, whose branches must come in the same order; so under an order that separates all ids
      it is order-free equality. */
  lemma MatchingIsOrderFree(left: Invocation, right: Invocation, idLeq: (Text, Text) -> bool)
    requires Accepted(left) && Accepted(right) && TotalPreorder(idLeq)
    ensures SameInvocation(left, right, idLeq) <==>
      OrderFreeEqual(left, right) && SameTies(left.branches, right.branches, ById(idLeq))
    ensures TotalOrder(idLeq) ==> (SameInvocation(left, right, idLeq) <==> OrderFreeEqual(left, right))
  {
    hide SameInvocation, OrderFreeEqual, SameTies, TiesAgree, ById, Canonical, NoIssue, SameBranches;
    MatchingExactly(left, right, idLeq);
    OrderFreeIsSameBranches(left, right);
    ByIdIsPreorder(idLeq);
    TiesAgreeSplits(left.branches, right.branches, ById(idLeq));
    if TotalOrder(idLeq) && OrderFreeEqual(left, right) {
      NoTies(left.branches, right.branches, idLeq);
    }
  }

  const PLAIN := Execution(Llm, true, [], [])

  function PlainPair(first: Text, second: Text): Invocation {
    Invocation(ParallelAgents, [Branch(first, PLAIN), Branch(second, PLAIN)])
  }

  lemma PlainPairAccepted(first: Text, second: Text)
    requires first != second && first != [] && second != []
    ensures Accepted(PlainPair(first, second))
  {
    assert BranchIds(PlainPair(first, second).branches) == [first, second];
  }

  lemma SwapIsOrderFree(first: Text, second: Text)
    requires Accepted(PlainPair(first, second)) && Accepted(PlainPair(second, first))
    ensures OrderFreeEqual(PlainPair(first, second), PlainPair(second, first))
  {
    hide Accepted, OrderFreeEqual;
    OrderFreeIsSameBranches(PlainPair(first, second), PlainPair(second, first));
  }

  lemma SwapBreaksTies(a: Branch, b: Branch, leq: (Branch, Branch) -> bool)
    requires leq(a, a) && leq(a, b) && leq(b, a) && a.branchId != b.branchId
    ensures !SameTies([a, b], [b, a], leq)
  {
    FilterAll([a, b], TiedWith(leq, a));
    FilterAll([b, a], TiedWith(leq, a));
    assert BranchIds([a, b])[0] != BranchIds([b, a])[0];
    assert BranchIds(Filter([a, b], TiedWith(leq, a))) != BranchIds(Filter([b, a], TiedWith(leq, a)));
  }

  /** Any two ids that compare equal make the order of branches matter: two accepted invocations that are
      equal but for the order of their branches and do not match. */
  lemma TiedIdsTellOrder(first: Text, second: Text, idLeq: (Text, Text) -> bool)
    requires TotalPreorder(idLeq) && idLeq(first, second) && idLeq(second, first)
    requires first != second && first != [] && second != []
    ensures var left, right := PlainPair(first, second), PlainPair(second, first);
      Accepted(left) && Accepted(right) && OrderFreeEqual(left, right) && !SameInvocation(left, right, idLeq)
  {
    assert idLeq(first, first);
    PlainPairAccepted(first, second);
    PlainPairAccepted(second, first);
    hide Accepted, OrderFreeEqual, SameInvocation, SameTies, TotalPreorder;
    SwapIsOrderFree(first, second);
    SwapBreaksTies(Branch(first, PLAIN), Branch(second, PLAIN), ById(idLeq));
    MatchingIsOrderFree(PlainPair(first, second), PlainPair(second, first), idLeq);
  }
}
