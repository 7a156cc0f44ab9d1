/** The render fence: a deterministic tool's data goes to the user as a render block, and the
    language model is told only what kind of block that was and how many rows it has. */
module RenderFence {
  import opened Basics

  datatype Result<+T> = Ok(value: T) | Err(error: string)

  datatype Inspected =
    | Pod | Deployment | ReplicaSet | StatefulSet | DaemonSet | Job | CronJob
    | Node | Namespace | Crd
    | Service | Ingress | NetworkPolicy
    | Pvc | Pv | StorageClass
    | ConfigMap | Secret
    | Role | RoleBinding | ClusterRole | ClusterRoleBinding
    | LimitRange | ResourceQuota | Hpa | Vpa | Pdb

  /** The registered tools; every other name is Other. */
  datatype Tool =
    | ListResources | ListPods | GetResource | GetPodYaml | GetLogs
    | Inspect(what: Inspected)
    | Other(name: string)

  datatype RenderType = KubectlTable | YamlBlock | LogBlock | RenderError

  /** The STATUS cell of a row: a string, or JSON that is none. */
  datatype Cell = Text(status: string) | NotText

  /** Shaped JSON, by its shape.  `body` is all the rest of it. */
  datatype Data =
    | TableData(rows: seq<Cell>, totalCount: int, singleNamespace: string, body: string)
    | DocumentData(body: string)
    | LogData(lines: seq<string>, body: string)
    | ErrorData(tool: Tool, error: string, raw: string)

  datatype Shaping = Shaped(data: Data, size: nat) | ShapeFailed(error: string)

  datatype Derived = Derived(tool: Tool, namespace: string, rowCount: int, statuses: map<string, nat>)

  datatype RenderBlock = RenderBlock(kind: RenderType, data: Data, summary: string)

  /** Code outside the fence. */
  datatype Environment = Environment(
    shape: (Tool, string) -> Shaping,
    summarize: Derived -> string,
    sizeError: nat -> string)

  const MAX_RENDER_DATA_BYTES := 1_000_000
  const RENDER_ERROR_RAW_CAP := 200_000

  /** How a deterministic tool is rendered; None for analytical tools. */
  function Lookup(tool: Tool): Option<RenderType> {
    match tool
    case ListResources => Some(KubectlTable)
    case ListPods => Some(KubectlTable)
    case GetResource => Some(YamlBlock)
    case GetPodYaml => Some(YamlBlock)
    case Inspect(_) => Some(YamlBlock)
    case GetLogs => Some(LogBlock)
    case Other(_) => None
  }

  // ------------------------------------------------------------------ derive

  function RowsOf(data: Data): seq<Cell> {
    if data.TableData? then data.rows else []
  }

  function TotalOf(data: Data): int {
    if data.TableData? then data.totalCount else 0
  }

  ghost predicate AllText(rows: seq<Cell>) {
    forall i :: 0 <= i < |rows| ==> rows[i].Text?
  }

  /** How often each status occurs. */
  ghost function Histogram(rows: seq<Cell>): map<string, nat> {
    map s | s in StatusesOf(rows) :: multiset(rows)[Text(s)]
  }

  ghost function StatusesOf(rows: seq<Cell>): set<string> {
    set i | 0 <= i < |rows| && rows[i].Text? :: rows[i].status
  }

  lemma CountOneMore(rows: seq<Cell>, s: string)
    ensures Histogram(rows + [Text(s)]) == var h := Histogram(rows); h[s := (if s in h then h[s] else 0) + 1]
  {
    var more := rows + [Text(s)];
    assert multiset(more) == multiset(rows) + multiset{Text(s)};
    StatusesOneMore(rows, s);
    if s !in StatusesOf(rows) {
      assert Text(s) !in multiset(rows);
    }
  }

  lemma StatusesOneMore(rows: seq<Cell>, s: string)
    ensures StatusesOf(rows + [Text(s)]) == StatusesOf(rows) + {s}
  {
    var more := rows + [Text(s)];
    assert more[|rows|] == Text(s);
    forall t | t in StatusesOf(rows) ensures t in StatusesOf(more) {
      var i :| 0 <= i < |rows| && rows[i].Text? && rows[i].status == t;
      assert more[i] == rows[i];
    }
  }

  method CountStatuses(rows: seq<Cell>) returns (r: Result<map<string, nat>>)
    ensures r.Ok? <==> AllText(rows)
    ensures r.Ok? ==> r.value == Histogram(rows)
  {
    var statuses: map<string, nat> := map[];
    for i := 0 to |rows|
      invariant AllText(rows[..i])
      invariant statuses == Histogram(rows[..i])
    {
      if rows[i].NotText? {
        return Err(NOT_TEXT);
      }
      var s := rows[i].status;
      assert rows[..i + 1] == rows[..i] + [Text(s)];
      CountOneMore(rows[..i], s);
      statuses := statuses[s := (if s in statuses then statuses[s] else 0) + 1];
    }
    assert rows[..|rows|] == rows;
    r := Ok(statuses);
  }

  const NOT_TEXT := "cannot unmarshal STATUS"

  /** What the summary may see: a count, a namespace and, for tables, a histogram. */
  ghost function DerivedOf(tool: Tool, namespace: string, data: Data): Result<Derived> {
    match tool
    case ListPods | ListResources =>
      if !AllText(RowsOf(data)) then Err(NOT_TEXT)
      else Ok(Derived(tool, if data.TableData? then data.singleNamespace else "",
                      Max(|RowsOf(data)|, TotalOf(data)), Histogram(RowsOf(data))))
    case GetPodYaml | GetResource | Inspect(_) => Ok(Derived(tool, namespace, 1, map[]))
    case GetLogs => Ok(Derived(tool, namespace, if data.LogData? then |data.lines| else 0, map[]))
    case Other(_) => Ok(Derived(tool, namespace, 0, map[]))
  }

  method Derive(tool: Tool, namespace: string, data: Data) returns (r: Result<Derived>)
    ensures r == DerivedOf(tool, namespace, data)
  {
    var d := Derived(tool, namespace, 0, map[]);
    match tool {
      case ListPods | ListResources =>
        var rows := RowsOf(data);
        d := d.(rowCount := Max(|rows|, TotalOf(data)),
                namespace := if data.TableData? then data.singleNamespace else "");
        var statuses := CountStatuses(rows);
        if statuses.Err? {
          return Err(NOT_TEXT);
        }
        d := d.(statuses := statuses.value);
      case GetPodYaml | GetResource | Inspect(_) => d := d.(rowCount := 1);
      case GetLogs => d := d.(rowCount := if data.LogData? then |data.lines| else 0);
      case Other(_) =>
    }
    r := Ok(d);
  }

  /** The order of the rows and everything else in them stay out of the summary. */
  lemma SummarySeesOnlyCounts(tool: Tool, namespace: string, a: Data, b: Data)
    requires a.TableData? && b.TableData? && a.singleNamespace == b.singleNamespace && a.totalCount == b.totalCount
    requires multiset(a.rows) == multiset(b.rows)
    ensures DerivedOf(tool, namespace, a) == DerivedOf(tool, namespace, b)
  {
    assert |multiset(a.rows)| == |a.rows| && |multiset(b.rows)| == |b.rows|;
    forall i | 0 <= i < |a.rows| ensures a.rows[i] in b.rows {
      assert a.rows[i] in multiset(b.rows);
    }
    forall i | 0 <= i < |b.rows| ensures b.rows[i] in a.rows {
      assert b.rows[i] in multiset(a.rows);
    }
    assert AllText(a.rows) <==> AllText(b.rows);
    assert StatusesOf(a.rows) == StatusesOf(b.rows);
  }

  /** The histogram counts every row once. */
  lemma {:induction false} HistogramCountsRows(rows: seq<Cell>)
    requires AllText(rows)
    ensures Total(Histogram(rows)) == |rows|
  {
    if rows == [] {
      assert Histogram(rows) == map[];
    } else {
      var front, s := rows[..|rows| - 1], rows[|rows| - 1].status;
      assert rows == front + [Text(s)];
      HistogramCountsRows(front);
      CountOneMore(front, s);
      TotalOneMore(Histogram(front), s);
    }
  }

  ghost function Total(m: map<string, nat>): nat {
    if m == map[] then 0
    else
      var s :| s in m;
      m[s] + Total(m - {s})
  }

  lemma {:induction false} TotalSplits(m: map<string, nat>, s: string)
    requires s in m
    ensures Total(m) == m[s] + Total(m - {s})
  {
    var t :| t in m && Total(m) == m[t] + Total(m - {t});
    if s != t {
      TotalSplits(m - {t}, s);
      TotalSplits(m - {s}, t);
      assert m - {t} - {s} == m - {s} - {t};
    }
  }

  lemma TotalOneMore(m: map<string, nat>, s: string)
    ensures Total(m[s := (if s in m then m[s] else 0) + 1]) == Total(m) + 1
  {
    var more := m[s := (if s in m then m[s] else 0) + 1];
    TotalSplits(more, s);
    assert more - {s} == m - {s};
    if s in m {
      TotalSplits(m, s);
    } else {
      assert m - {s} == m;
    }
  }

  // ------------------------------------------------------------------ the chokepoint

  const SUFFIX := "...[truncated]"

  /** At most `max` characters, a cut being marked with the suffix. */
  function Truncated(raw: string, max: nat): string {
    if |raw| <= max then raw
    else if max <= |SUFFIX| then SUFFIX[..max]
    else raw[..max - |SUFFIX|] + SUFFIX
  }

  method MaybeTruncate(raw: string, max: nat) returns (r: string)
    ensures r == Truncated(raw, max) && (|r| <= max) && (|r| == |raw| || |r| == max)
  {
    if |raw| <= max {
      return raw;
    }
    if max <= |SUFFIX| {
      return SUFFIX[..max];
    }
    var out := new char[max];
    var kept := max - |SUFFIX|;
    forall i | 0 <= i < kept {
      out[i] := raw[i];
    }
    forall i | 0 <= i < |SUFFIX| {
      out[kept + i] := SUFFIX[i];
    }
    r := out[..];
    assert forall i :: 0 <= i < |SUFFIX| ==> r[kept + i] == SUFFIX[i];
    assert r[kept..] == SUFFIX;
    assert r == r[..kept] + r[kept..];
  }

  const ERROR_SUMMARY := "Could not render this result; raw output below."

  method BuildRenderError(tool: Tool, raw: string, error: string) returns (b: RenderBlock)
    ensures b == RenderBlock(RenderError, ErrorData(tool, error, Truncated(raw, RENDER_ERROR_RAW_CAP)), ERROR_SUMMARY)
  {
    var shown := MaybeTruncate(raw, RENDER_ERROR_RAW_CAP);
    b := RenderBlock(RenderError, ErrorData(tool, error, shown), ERROR_SUMMARY);
  }

  /** Shaped, within the size limit, and readable to derive; or why not. */
  ghost function Rendering(env: Environment, tool: Tool, namespace: string, raw: string): Result<Derived> {
    match env.shape(tool, raw)
    case ShapeFailed(error) => Err(error)
    case Shaped(data, size) =>
      if size > MAX_RENDER_DATA_BYTES then Err(env.sizeError(size)) else DerivedOf(tool, namespace, data)
  }

  ghost function Response(env: Environment, tool: Tool, namespace: string, raw: string): RenderBlock
    requires !tool.Other?
  {
    match Rendering(env, tool, namespace, raw)
    case Ok(d) => RenderBlock(Lookup(tool).value, env.shape(tool, raw).data, env.summarize(d))
    case Err(error) =>
      RenderBlock(RenderError, ErrorData(tool, error, Truncated(raw, RENDER_ERROR_RAW_CAP)), ERROR_SUMMARY)
  }

  ghost predicate Renders(env: Environment, tool: Tool, raw: string) {
    Rendering(env, tool, "", raw).Ok?
  }

  /** None for a tool that is not deterministic.  Every failure becomes an error block. */
  method BuildDeterministicResponse(env: Environment, tool: Tool, namespace: string, raw: string)
    returns (b: Option<RenderBlock>)
    ensures b == if tool.Other? then None else Some(Response(env, tool, namespace, raw))
  {
    var behavior := Lookup(tool);
    if behavior.None? {
      return None;
    }
    var shaped := env.shape(tool, raw);
    if shaped.ShapeFailed? {
      var e := BuildRenderError(tool, raw, shaped.error);
      return Some(e);
    }
    if shaped.size > MAX_RENDER_DATA_BYTES {
      var e := BuildRenderError(tool, raw, env.sizeError(shaped.size));
      return Some(e);
    }
    var d := Derive(tool, namespace, shaped.data);
    if d.Err? {
      var e := BuildRenderError(tool, raw, d.error);
      return Some(e);
    }
    b := Some(RenderBlock(behavior.value, shaped.data, env.summarize(d.value)));
  }

  // ------------------------------------------------------------------ what the model is told

  function CountRows(data: Data): nat {
    if TotalOf(data) > |RowsOf(data)| then TotalOf(data)
    else if RowsOf(data) != [] then |RowsOf(data)|
    else 1
  }

  function Digit(d: nat): char
    requires d < 10
  {
    '0' + d as char
  }

  function Decimal(n: nat): string {
    if n < 10 then [Digit(n)] else Decimal(n / 10) + [Digit(n % 10)]
  }

  function PluralKind(kind: string, n: nat): string {
    var s := Lower(kind);
    if n == 1 || (s != [] && s[|s| - 1] == 's') then s else s + "s"
  }

  function TypeName(t: RenderType): string {
    match t
    case KubectlTable => "kubectl_table"
    case YamlBlock => "yaml_block"
    case LogBlock => "log_block"
    case RenderError => "render_error"
  }

  // The UTF-8 bytes of the em dash.
  const DASH: string := "\U{E2}\U{80}\U{94}"

  const GUIDANCE :=
    "Acknowledge briefly in one short sentence " + DASH + " do NOT restate the data, "
    + "do NOT suggest running kubectl or any other CLI, " + "the user has the full result on screen."

  /** The middle of the sentence. */
  function Viewing(t: RenderType, count: nat, kind: string): string {
    match t
    case KubectlTable => "a table of " + Decimal(count) + " " + (if kind != "" then PluralKind(kind, count) else "rows")
    case YamlBlock => "the full YAML document"
    case RenderError => "an error message" + " explaining what could not be rendered"
    case LogBlock => "a " + TypeName(t) + " with " + Decimal(count) + " rows"
  }

  function StubForLLM(t: RenderType, count: nat, kind: string): string {
    "The user is now viewing " + Viewing(t, count, kind) + " above this message. " + GUIDANCE
  }

  datatype Args = Args(namespace: Option<string>, kind: Option<string>)

  function KindOf(args: Args): string {
    if args.kind.Some? then args.kind.value else ""
  }

  /** The explicit namespace, or else the session's for tools that work in one. */
  function NamespaceOf(tool: Tool, args: Args, session: string): string {
    if args.namespace.Some? && args.namespace.value != "" then args.namespace.value
    else if !tool.ListResources? && !tool.ListPods? then session
    else ""
  }

  class RenderExecutor {
    const namespace: string
    var events: seq<RenderBlock>

    constructor (namespace: string)
      ensures this.namespace == namespace && events == []
    {
      this.namespace, events := namespace, [];
    }

    /** `inner` is what the wrapped tool returned for these arguments. */
    method Execute(env: Environment, tool: Tool, args: Args, inner: Result<string>) returns (answer: Result<string>)
      modifies this
      ensures answer == Answer(env, tool, args, inner)
      ensures tool.Other? || inner.Err? ==> answer == inner && events == old(events)
      ensures !tool.Other? && inner.Ok? ==>
        && events == old(events) + [Response(env, tool, NamespaceOf(tool, args, namespace), inner.value)]
        && Suits(tool, events[|old(events)|].kind, Renders(env, tool, inner.value))
    {
      if Lookup(tool).None? || inner.Err? {
        return inner;
      }
      var ns := NamespaceOf(tool, args, namespace);
      var b := BuildDeterministicResponse(env, tool, ns, inner.value);
      events := events + [b.value];
      ToldIsShown(env, tool, ns, args, inner.value);
      RenderedAsRegistered(env, tool, ns, inner.value);
      answer := Ok(StubForLLM(b.value.kind, CountRows(b.value.data), KindOf(args)));
    }
  }

  /** The type of the block the user gets. */
  ghost function ShownType(env: Environment, tool: Tool, raw: string): RenderType
    requires !tool.Other?
  {
    if Renders(env, tool, raw) then Lookup(tool).value else RenderError
  }

  /** Its row count. */
  ghost function ShownCount(env: Environment, tool: Tool, raw: string): nat {
    if Renders(env, tool, raw) then CountRows(env.shape(tool, raw).data) else 1
  }

  ghost function Told(env: Environment, tool: Tool, args: Args, raw: string): string
    requires !tool.Other?
  {
    StubForLLM(ShownType(env, tool, raw), ShownCount(env, tool, raw), KindOf(args))
  }

  /** What the model is answered. */
  ghost function Answer(env: Environment, tool: Tool, args: Args, inner: Result<string>): Result<string> {
    if tool.Other? || inner.Err? then inner else Ok(Told(env, tool, args, inner.value))
  }

  // ------------------------------------------------------------------ which tools are fenced, and how

  predicate ListTool(tool: Tool) {
    tool.ListResources? || tool.ListPods?
  }

  predicate DocumentTool(tool: Tool) {
    tool.GetResource? || tool.GetPodYaml? || tool.Inspect?
  }

  /** Every registered tool is behind the fence, every inspection of a secret included. */
  lemma RegisteredIsFenced(tool: Tool)
    ensures !tool.Other? <==> Lookup(tool).Some?
  {
  }

  /** Lists show tables, single resources documents and logs log blocks, if they can be shown. */
  predicate Suits(tool: Tool, kind: RenderType, rendered: bool) {
    && (!rendered <==> kind == RenderError)
    && (rendered ==> (kind == KubectlTable <==> ListTool(tool)) && (kind == YamlBlock <==> DocumentTool(tool))
                     && (kind == LogBlock <==> tool.GetLogs?))
  }

  lemma RenderedAsRegistered(env: Environment, tool: Tool, namespace: string, raw: string)
    requires !tool.Other?
    ensures Suits(tool, Response(env, tool, namespace, raw).kind, Renders(env, tool, raw))
    ensures Suits(tool, ShownType(env, tool, raw), Renders(env, tool, raw))
  {
  }

  /** A result is shown exactly when its shape was found, is at most a million bytes and, for a
      list, has a status in every row; a result that cannot be shown comes with at most two
      hundred thousand bytes of itself. */
  lemma RendersMeans(env: Environment, tool: Tool, namespace: string, raw: string)
    requires !tool.Other?
    ensures Renders(env, tool, raw) <==>
      && env.shape(tool, raw).Shaped? && env.shape(tool, raw).size <= 1_000_000
      && (ListTool(tool) && env.shape(tool, raw).data.TableData? ==>
            forall i :: 0 <= i < |env.shape(tool, raw).data.rows| ==> env.shape(tool, raw).data.rows[i].Text?)
    ensures var b := Response(env, tool, namespace, raw);
      if Renders(env, tool, raw) then b.data == env.shape(tool, raw).data
      else
        && b.data.ErrorData? && b.data.tool == tool
        && |b.data.raw| <= 200_000 && (|raw| <= 200_000 ==> b.data.raw == raw)
  {
  }

  /** A cut is as long as allowed, begins like the original and says that it is one. */
  lemma TruncatedMeans(raw: string, max: nat)
    requires |raw| > max > |SUFFIX|
    ensures |Truncated(raw, max)| == max && SUFFIX == Truncated(raw, max)[max - |SUFFIX|..]
    ensures Truncated(raw, max)[..max - |SUFFIX|] <= raw
  {
  }

  /** A table is labelled with the namespace seen in it, never with the session's. */
  lemma ListsIgnoreSession(tool: Tool, args: Args, session: string, other: string, data: Data)
    requires ListTool(tool)
    ensures NamespaceOf(tool, args, session) == NamespaceOf(tool, args, other)
    ensures DerivedOf(tool, session, data) == DerivedOf(tool, other, data)
  {
  }

  /** What the summary is made from: for a list its own namespace and the greater of the rows
      shown and the total; for a document one, for logs the lines, in the call's namespace. */
  lemma DerivedMeans(tool: Tool, namespace: string, data: Data)
    requires DerivedOf(tool, namespace, data).Ok?
    ensures var d := DerivedOf(tool, namespace, data).value;
      && d.tool == tool
      && (ListTool(tool) && data.TableData? ==>
            && d.namespace == data.singleNamespace && d.rowCount >= |data.rows| && d.rowCount >= data.totalCount
            && (d.rowCount == |data.rows| || d.rowCount == data.totalCount)
            && (forall s :: s in d.statuses <==> Text(s) in data.rows)
            && (forall s :: s in d.statuses ==> d.statuses[s] == multiset(data.rows)[Text(s)]))
      && (DocumentTool(tool) ==> d.namespace == namespace && d.rowCount == 1)
      && (tool.GetLogs? && data.LogData? ==> d.namespace == namespace && d.rowCount == |data.lines|)
  {
  }

  /** The kind is named as the caller gave it, in lower case and in number. */
  lemma KindIsNamed(count: nat, kind: string)
    requires kind != ""
    ensures Viewing(KubectlTable, count, kind) == "a table of " + Decimal(count) + " " + PluralKind(kind, count)
    ensures Lower(kind) <= PluralKind(kind, count) && |PluralKind(kind, count)| <= |kind| + 1
    ensures count == 1 ==> PluralKind(kind, count) == Lower(kind)
    ensures count != 1 ==> PluralKind(kind, count)[|PluralKind(kind, count)| - 1] == 's'
  {
  }

  /** The count told is at least every count there is, at least one, and one of these. */
  lemma CountMeans(data: Data)
    requires data.TableData?
    ensures var n := CountRows(data);
      && n >= 1 && n >= |data.rows| && n >= data.totalCount
      && (n == 1 || n == |data.rows| || n == data.totalCount)
  {
  }

  // ------------------------------------------------------------------ the sentence can be read back

  function Value(s: string): nat
    requires AllDigits(s)
  {
    if s == [] then 0 else 10 * Value(s[..|s| - 1]) + (s[|s| - 1] - '0') as nat
  }

  predicate AllDigits(s: string) {
    forall i :: 0 <= i < |s| ==> '0' <= s[i] <= '9'
  }

  lemma {:induction false} DecimalReadsBack(n: nat)
    ensures AllDigits(Decimal(n)) && Decimal(n) != [] && Value(Decimal(n)) == n
  {
    if n < 10 {
      assert Decimal(n)[..0] == [];
    } else {
      DecimalReadsBack(n / 10);
      assert Decimal(n)[..|Decimal(n)| - 1] == Decimal(n / 10);
    }
  }

  /** Text after a number and a space does not blur the number. */
  lemma NumberEndsAtSpace(a: string, b: string, x: string, y: string)
    requires AllDigits(a) && AllDigits(b) && a + " " + x == b + " " + y
    ensures a == b
  {
    var s := a + " " + x;
    assert s[|a|] == ' ' && s[|b|] == ' ';
    assert forall i :: 0 <= i < |a| ==> s[i] == a[i];
    assert forall i :: 0 <= i < |b| ==> s[i] == b[i];
    assert |a| >= |b| && |b| >= |a|;
    assert a == s[..|a|] && b == s[..|b|];
  }

  lemma CountIsReadable(prefix: string, m: nat, n: nat, x: string, y: string)
    requires prefix + Decimal(m) + " " + x == prefix + Decimal(n) + " " + y
    ensures m == n
  {
    var s, t := Decimal(m) + " " + x, Decimal(n) + " " + y;
    assert prefix + Decimal(m) + " " + x == prefix + s && prefix + Decimal(n) + " " + y == prefix + t;
    assert s == (prefix + s)[|prefix|..] && t == (prefix + t)[|prefix|..];
    DecimalReadsBack(m);
    DecimalReadsBack(n);
    NumberEndsAtSpace(Decimal(m), Decimal(n), x, y);
  }

  /** The first three characters tell the types apart. */
  function Mark(t: RenderType): string {
    match t
    case KubectlTable => "a t"
    case LogBlock => "a l"
    case YamlBlock => "the"
    case RenderError => "an "
  }

  lemma TypeIsReadable(t: RenderType, u: RenderType, m: nat, n: nat, kind: string)
    requires Viewing(t, m, kind) == Viewing(u, n, kind)
    ensures t == u
  {
    var s, r := Viewing(t, m, kind), Viewing(u, n, kind);
    Opening(t, m, kind);
    Opening(u, n, kind);
    assert Mark(t) == s[..3] && Mark(u) == r[..3];
    assert Mark(t)[0] == Mark(u)[0] && Mark(t)[1] == Mark(u)[1] && Mark(t)[2] == Mark(u)[2];
  }

  lemma TableOpens(n: nat, kind: string)
    ensures Mark(KubectlTable) <= Viewing(KubectlTable, n, kind)
  {
    var rest := Decimal(n) + " " + (if kind != "" then PluralKind(kind, n) else "rows");
    assert Viewing(KubectlTable, n, kind) == "a t" + ("able of " + rest);
  }

  lemma LogOpens(n: nat, kind: string)
    ensures Mark(LogBlock) <= Viewing(LogBlock, n, kind)
  {
    assert Viewing(LogBlock, n, kind) == "a l" + ("og_block" + " with " + Decimal(n) + " rows");
  }

  lemma ErrorOpens(n: nat, kind: string)
    ensures Mark(RenderError) <= Viewing(RenderError, n, kind)
  {
    assert "an error message" == "an " + "error message";
    assert Viewing(RenderError, n, kind) == "an " + ("error message" + " explaining what could not be rendered");
  }

  lemma Opening(t: RenderType, n: nat, kind: string)
    ensures Mark(t) <= Viewing(t, n, kind)
  {
    match t
    case KubectlTable => TableOpens(n, kind);
    case LogBlock => LogOpens(n, kind);
    case RenderError => ErrorOpens(n, kind);
    case YamlBlock => assert Viewing(t, n, kind) == "the" + " full YAML document";
  }

  /** Whether the sentence names a number. */
  predicate Numbered(t: RenderType) {
    t == KubectlTable || t == LogBlock
  }

  lemma MiddleIsReadable(t: RenderType, u: RenderType, m: nat, n: nat, kind: string)
    ensures Viewing(t, m, kind) == Viewing(u, n, kind) <==> t == u && (Numbered(t) ==> m == n)
  {
    if Viewing(t, m, kind) == Viewing(u, n, kind) {
      TypeIsReadable(t, u, m, n, kind);
      if t == KubectlTable {
        TableCountIsReadable(m, n, kind);
      } else if t == LogBlock {
        assert "a log_block with " == "a " + TypeName(LogBlock) + " with ";
        LogCountIsReadable(m, n, kind);
      }
    }
  }

  lemma TableCountIsReadable(m: nat, n: nat, kind: string)
    requires Viewing(KubectlTable, m, kind) == Viewing(KubectlTable, n, kind)
    ensures m == n
  {
    CountIsReadable("a table of ", m, n, if kind != "" then PluralKind(kind, m) else "rows",
                    if kind != "" then PluralKind(kind, n) else "rows");
  }

  lemma LogCountIsReadable(m: nat, n: nat, kind: string)
    requires Viewing(LogBlock, m, kind) == Viewing(LogBlock, n, kind)
    ensures m == n
  {
    var prefix := "a " + TypeName(LogBlock) + " with ";
    assert forall k: nat :: prefix + Decimal(k) + " rows" == prefix + Decimal(k) + " " + "rows";
    CountIsReadable(prefix, m, n, "rows", "rows");
  }

  lemma SameMiddle(prefix: string, a: string, b: string, suffix: string)
    requires prefix + a + suffix == prefix + b + suffix
    ensures a == b
  {
    var s, t := prefix + a + suffix, prefix + b + suffix;
    assert |a| == |b|;
    assert a == s[|prefix|..|prefix| + |a|] && b == t[|prefix|..|prefix| + |b|];
  }

  lemma StubIsReadable(t: RenderType, u: RenderType, m: nat, n: nat, kind: string)
    ensures StubForLLM(t, m, kind) == StubForLLM(u, n, kind) <==> t == u && (Numbered(t) ==> m == n)
  {
    MiddleIsReadable(t, u, m, n, kind);
    var prefix, suffix := "The user is now viewing ", " above this message. " + GUIDANCE;
    StubParts(t, m, kind, prefix, suffix);
    StubParts(u, n, kind, prefix, suffix);
    if StubForLLM(t, m, kind) == StubForLLM(u, n, kind) {
      SameMiddle(prefix, Viewing(t, m, kind), Viewing(u, n, kind), suffix);
    }
  }

  lemma StubParts(t: RenderType, n: nat, kind: string, prefix: string, suffix: string)
    requires prefix == "The user is now viewing " && suffix == " above this message. " + GUIDANCE
    ensures StubForLLM(t, n, kind) == prefix + Viewing(t, n, kind) + suffix
  {
    var v := Viewing(t, n, kind);
    assert prefix + v + " above this message. " + GUIDANCE == prefix + v + (" above this message. " + GUIDANCE);
  }

  // ------------------------------------------------------------------ the fence

  /** Two successful results of one call: the model can tell them apart exactly when the block's
      type differs, or its row count in a type that has one.  Nothing else gets through. */
  lemma FenceIsExact(env: Environment, tool: Tool, args: Args, raw1: string, raw2: string)
    requires !tool.Other?
    ensures Told(env, tool, args, raw1) == Told(env, tool, args, raw2) <==>
      && ShownType(env, tool, raw1) == ShownType(env, tool, raw2)
      && (Numbered(ShownType(env, tool, raw1)) ==> ShownCount(env, tool, raw1) == ShownCount(env, tool, raw2))
  {
    StubIsReadable(ShownType(env, tool, raw1), ShownType(env, tool, raw2),
                   ShownCount(env, tool, raw1), ShownCount(env, tool, raw2), KindOf(args));
  }

  /** The same of the answers themselves: a fenced call that succeeds tells the two results
      apart by nothing but the type of the block and its count. */
  lemma AnswersAreFenced(env: Environment, tool: Tool, args: Args, raw1: string, raw2: string)
    requires !tool.Other?
    ensures Answer(env, tool, args, Ok(raw1)) == Answer(env, tool, args, Ok(raw2)) <==>
      && ShownType(env, tool, raw1) == ShownType(env, tool, raw2)
      && (Numbered(ShownType(env, tool, raw1)) ==> ShownCount(env, tool, raw1) == ShownCount(env, tool, raw2))
  {
    FenceIsExact(env, tool, args, raw1, raw2);
  }

  /** For a tool rendered as a document the model learns one bit: whether it could be rendered. */
  lemma DocumentsTellOneBit(env: Environment, tool: Tool, args: Args, raw1: string, raw2: string)
    requires DocumentTool(tool)
    ensures Told(env, tool, args, raw1) == Told(env, tool, args, raw2) <==>
            (Renders(env, tool, raw1) <==> Renders(env, tool, raw2))
  {
    FenceIsExact(env, tool, args, raw1, raw2);
  }

  /** Shapers give each tool the shape it is registered with. */
  ghost predicate Faithful(env: Environment) {
    forall raw :: env.shape(GetLogs, raw).Shaped? ==> env.shape(GetLogs, raw).data.LogData?
  }

  /** For logs too: however many lines there are, the model is told of one row. */
  lemma LogsTellOneBit(env: Environment, args: Args, raw1: string, raw2: string)
    requires Faithful(env)
    ensures Told(env, GetLogs, args, raw1) == Told(env, GetLogs, args, raw2) <==>
            (Renders(env, GetLogs, raw1) <==> Renders(env, GetLogs, raw2))
    ensures ShownCount(env, GetLogs, raw1) == 1
  {
    FenceIsExact(env, GetLogs, args, raw1, raw2);
  }

  /** What the model is told about a table agrees with what the user's summary is made from,
      except that an empty table counts one row. */
  lemma ToldMatchesSummary(env: Environment, tool: Tool, namespace: string, raw: string)
    requires (tool.ListPods? || tool.ListResources?) && Renders(env, tool, raw)
    ensures var d := Rendering(env, tool, namespace, raw);
      d.Ok? && ShownCount(env, tool, raw) == Max(1, d.value.rowCount)
  {
  }

  /** The block the user gets has the type and count the model is told of. */
  lemma ToldIsShown(env: Environment, tool: Tool, namespace: string, args: Args, raw: string)
    requires !tool.Other?
    ensures var b := Response(env, tool, namespace, raw);
      Told(env, tool, args, raw) == StubForLLM(b.kind, CountRows(b.data), KindOf(args))
  {
  }
}
