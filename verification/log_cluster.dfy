/** Grouping log lines by template, whatever order maps are walked in. */
module LogCluster {
  import opened Sorting

  datatype LogLine = LogLine(pod: string, line: string, timestamp: int)

  datatype Accum = Accum(count: nat, pods: set<string>, firstSeen: int, lastSeen: int, sample: string)

  datatype Pattern = Pattern(template: string, count: nat, pods: seq<string>, firstSeen: int, lastSeen: int,
                             sample: string)

  // ------------------------------------------------------------------ orders

  /** Character by character. */
  predicate StringLe(a: string, b: string) {
    a == [] || (b != [] && (a[0] < b[0] || (a[0] == b[0] && StringLe(a[1..], b[1..]))))
  }

  lemma {:induction false} StringLeTotal(a: string, b: string)
    ensures StringLe(a, b) || StringLe(b, a)
    ensures StringLe(a, b) && StringLe(b, a) ==> a == b
  {
    if a != [] && b != [] {
      StringLeTotal(a[1..], b[1..]);
      assert a == [a[0]] + a[1..] && b == [b[0]] + b[1..];
    }
  }

  lemma {:induction false} StringLeTransitive(a: string, b: string, c: string)
    requires StringLe(a, b) && StringLe(b, c)
    ensures StringLe(a, c)
  {
    if a != [] && a[0] == b[0] == c[0] {
      StringLeTransitive(a[1..], b[1..], c[1..]);
    }
  }

  lemma StringOrder()
    ensures TotalPreorder(StringLe) && Antisymmetric(StringLe)
  {
    forall a, b ensures StringLe(a, b) || StringLe(b, a) {
      StringLeTotal(a, b);
    }
    forall a, b | StringLe(a, b) && StringLe(b, a) ensures a == b {
      StringLeTotal(a, b);
    }
    forall a, b, c | StringLe(a, b) && StringLe(b, c) ensures StringLe(a, c) {
      StringLeTransitive(a, b, c);
    }
  }

  /** What patterns are sorted by. */
  datatype Key = Key(count: nat, template: string)

  /** Greater counts first, then by template. */
  predicate KeyLe(a: Key, b: Key) {
    a.count > b.count || (a.count == b.count && StringLe(a.template, b.template))
  }

  lemma KeyOrder()
    ensures TotalPreorder(KeyLe) && Antisymmetric(KeyLe)
  {
    forall a, b ensures KeyLe(a, b) || KeyLe(b, a) {
      StringLeTotal(a.template, b.template);
    }
    forall a, b | KeyLe(a, b) && KeyLe(b, a) ensures a == b {
      StringLeTotal(a.template, b.template);
    }
    forall a, b, c | KeyLe(a, b) && KeyLe(b, c) ensures KeyLe(a, c) {
      if a.count == b.count == c.count {
        StringLeTransitive(a.template, b.template, c.template);
      }
    }
  }

  function KeyOf(p: Pattern): Key {
    Key(p.count, p.template)
  }

  predicate PatternLe(a: Pattern, b: Pattern) {
    KeyLe(KeyOf(a), KeyOf(b))
  }

  lemma PatternOrder()
    ensures TotalPreorder(PatternLe)
  {
    KeyOrder();
    forall a, b ensures PatternLe(a, b) || PatternLe(b, a) {
      assert KeyLe(KeyOf(a), KeyOf(b)) || KeyLe(KeyOf(b), KeyOf(a));
    }
    forall a, b, c | PatternLe(a, b) && PatternLe(b, c) ensures PatternLe(a, c) {
      assert KeyLe(KeyOf(a), KeyOf(b)) && KeyLe(KeyOf(b), KeyOf(c));
    }
  }

  function KeysOf(s: seq<Pattern>): (r: seq<Key>)
    ensures |r| == |s| && forall i :: 0 <= i < |s| ==> r[i] == KeyOf(s[i])
  {
    if s == [] then [] else KeysOf(s[..|s| - 1]) + [KeyOf(s[|s| - 1])]
  }

  // ------------------------------------------------------------------ the lines of one template

  function Matching(extract: string -> string, lines: seq<LogLine>, t: string): seq<LogLine> {
    if lines == [] then []
    else
      var last := lines[|lines| - 1];
      Matching(extract, lines[..|lines| - 1], t) + (if extract(last.line) == t then [last] else [])
  }

  ghost function Templates(extract: string -> string, lines: seq<LogLine>): set<string> {
    set i | 0 <= i < |lines| :: extract(lines[i].line)
  }

  ghost function PodsOf(m: seq<LogLine>): set<string> {
    set i | 0 <= i < |m| :: m[i].pod
  }

  ghost predicate Earliest(t: int, m: seq<LogLine>) {
    && (exists i :: 0 <= i < |m| && m[i].timestamp == t)
    && (forall i :: 0 <= i < |m| ==> t <= m[i].timestamp)
  }

  ghost predicate Latest(t: int, m: seq<LogLine>) {
    && (exists i :: 0 <= i < |m| && m[i].timestamp == t)
    && (forall i :: 0 <= i < |m| ==> m[i].timestamp <= t)
  }

  /** The accumulator of these lines. */
  ghost predicate Accumulates(a: Accum, m: seq<LogLine>) {
    && m != []
    && a.count == |m| && a.pods == PodsOf(m)
    && Earliest(a.firstSeen, m) && Latest(a.lastSeen, m)
    && a.sample == m[0].line
  }

  ghost predicate AccumulatesAll(acc: map<string, Accum>, extract: string -> string, lines: seq<LogLine>) {
    && acc.Keys == Templates(extract, lines)
    && forall t :: t in acc ==> Accumulates(acc[t], Matching(extract, lines, t))
  }

  function Start(l: LogLine): Accum {
    Accum(0, {}, l.timestamp, l.timestamp, l.line)
  }

  function Add(a: Accum, l: LogLine): Accum {
    Accum(a.count + 1, a.pods + {l.pod},
          if l.timestamp < a.firstSeen then l.timestamp else a.firstSeen,
          if l.timestamp > a.lastSeen then l.timestamp else a.lastSeen,
          a.sample)
  }

  lemma AddAccumulates(a: Accum, m: seq<LogLine>, l: LogLine)
    requires Accumulates(a, m)
    ensures Accumulates(Add(a, l), m + [l])
  {
    var more, b := m + [l], Add(a, l);
    assert more[|m|] == l;
    assert forall i :: 0 <= i < |m| ==> more[i] == m[i];
    PodsOneMore(m, l);
    var i :| 0 <= i < |m| && m[i].timestamp == a.firstSeen;
    var j :| 0 <= j < |m| && m[j].timestamp == a.lastSeen;
    assert more[i] == m[i] && more[j] == m[j];
  }

  lemma PodsOneMore(m: seq<LogLine>, l: LogLine)
    ensures PodsOf(m + [l]) == PodsOf(m) + {l.pod}
  {
    var more := m + [l];
    assert more[|m|] == l;
    assert forall i :: 0 <= i < |m| ==> more[i] == m[i];
    forall p | p in PodsOf(m) ensures p in PodsOf(more) {
      var i :| 0 <= i < |m| && m[i].pod == p;
      assert more[i].pod == p;
    }
  }

  lemma StartAccumulates(l: LogLine)
    ensures Accumulates(Add(Start(l), l), [l])
  {
    assert [l][0].timestamp == l.timestamp;
    PodsOneMore([], l);
    assert [] + [l] == [l];
  }

  lemma TemplatesOneMore(extract: string -> string, lines: seq<LogLine>, l: LogLine)
    ensures Templates(extract, lines + [l]) == Templates(extract, lines) + {extract(l.line)}
  {
    var more := lines + [l];
    assert more[|lines|] == l;
    forall t | t in Templates(extract, lines) ensures t in Templates(extract, more) {
      var i :| 0 <= i < |lines| && extract(lines[i].line) == t;
      assert more[i] == lines[i];
    }
  }

  lemma {:induction false} MatchingIsEmpty(extract: string -> string, lines: seq<LogLine>, t: string)
    ensures Matching(extract, lines, t) == [] <==> t !in Templates(extract, lines)
  {
    if lines != [] {
      var front, l := lines[..|lines| - 1], lines[|lines| - 1];
      MatchingIsEmpty(extract, front, t);
      TemplatesOneMore(extract, front, l);
      assert lines == front + [l];
    }
  }

  lemma AccumulatesOneMore(acc: map<string, Accum>, extract: string -> string, lines: seq<LogLine>, l: LogLine)
    requires AccumulatesAll(acc, extract, lines)
    ensures var t := extract(l.line);
      AccumulatesAll(acc[t := Add(if t in acc then acc[t] else Start(l), l)], extract, lines + [l])
  {
    var t := extract(l.line);
    var more := acc[t := Add(if t in acc then acc[t] else Start(l), l)];
    assert (lines + [l])[..|lines|] == lines;
    TemplatesOneMore(extract, lines, l);
    if t in acc {
      AddAccumulates(acc[t], Matching(extract, lines, t), l);
    } else {
      MatchingIsEmpty(extract, lines, t);
      StartAccumulates(l);
      assert [] + [l] == [l];
    }
    forall u | u in more ensures Accumulates(more[u], Matching(extract, lines + [l], u)) {
      if u != t {
        assert Matching(extract, lines + [l], u) == Matching(extract, lines, u) + [];
        assert Matching(extract, lines, u) + [] == Matching(extract, lines, u);
      }
    }
  }

  // ------------------------------------------------------------------ clustering

  /** The pattern of a template. */
  ghost predicate Summarizes(p: Pattern, m: seq<LogLine>) {
    && m != []
    && p.count == |m|
    && SortedBy(p.pods, StringLe) && multiset(p.pods) == multiset(PodsOf(m))
    && Earliest(p.firstSeen, m) && Latest(p.lastSeen, m)
    && p.sample == m[0].line
  }

  ghost function KeySet(extract: string -> string, lines: seq<LogLine>, templates: set<string>): set<Key> {
    set t | t in templates :: Key(|Matching(extract, lines, t)|, t)
  }

  /** The clustering: one pattern for each template, greatest counts first. */
  ghost predicate Clusters(extract: string -> string, lines: seq<LogLine>, out: seq<Pattern>) {
    SortedBy(KeysOf(out), KeyLe) && Lists(extract, lines, out, Templates(extract, lines))
  }

  /** The pods in any order, sorted. */
  method SortedPods(pods: set<string>) returns (r: seq<string>)
    ensures SortedBy(r, StringLe) && multiset(r) == multiset(pods)
  {
    var listed: seq<string>, rest := [], pods;
    while rest != {}
      invariant rest <= pods && multiset(listed) == multiset(pods - rest)
      decreases |rest|
    {
      var p :| p in rest;
      assert pods - (rest - {p}) == (pods - rest) + {p};
      listed, rest := listed + [p], rest - {p};
    }
    assert pods - rest == pods;
    StringOrder();
    SortSorts(listed, StringLe);
    SortPermutes(listed, StringLe);
    r := Sort(listed, StringLe);
  }

  method Accumulate(extract: string -> string, lines: seq<LogLine>) returns (acc: map<string, Accum>)
    ensures AccumulatesAll(acc, extract, lines)
  {
    acc := map[];
    for i := 0 to |lines|
      invariant AccumulatesAll(acc, extract, lines[..i])
    {
      var l := lines[i];
      var t := extract(l.line);
      assert lines[..i + 1] == lines[..i] + [l];
      AccumulatesOneMore(acc, extract, lines[..i], l);
      var a := if t in acc then acc[t] else Start(l);
      acc := acc[t := Add(a, l)];
    }
    assert lines[..|lines|] == lines;
  }

  method PatternFor(t: string, a: Accum, ghost m: seq<LogLine>) returns (p: Pattern)
    requires Accumulates(a, m)
    ensures p.template == t && Summarizes(p, m)
  {
    var pods := SortedPods(a.pods);
    p := Pattern(t, a.count, pods, a.firstSeen, a.lastSeen, a.sample);
  }

  method ListTemplate(extract: string -> string, lines: seq<LogLine>, acc: map<string, Accum>, out: seq<Pattern>,
                      ghost done: set<string>, t: string) returns (more: seq<Pattern>)
    requires AccumulatesAll(acc, extract, lines) && t in acc.Keys && t !in done
    requires Lists(extract, lines, out, done)
    ensures Lists(extract, lines, more, done + {t})
  {
    var p := PatternFor(t, acc[t], Matching(extract, lines, t));
    ListOneMore(extract, lines, out, done, p);
    more := out + [p];
  }

  /** The accumulators as patterns, in whatever order the map is walked. */
  method ListPatterns(extract: string -> string, lines: seq<LogLine>, acc: map<string, Accum>)
    returns (out: seq<Pattern>)
    requires AccumulatesAll(acc, extract, lines)
    ensures Lists(extract, lines, out, Templates(extract, lines))
  {
    out := [];
    var rest := acc.Keys;
    while rest != {}
      invariant rest <= acc.Keys
      invariant Lists(extract, lines, out, acc.Keys - rest)
      decreases rest
    {
      var t :| t in rest;
      LessRest(acc.Keys, rest, t);
      out := ListTemplate(extract, lines, acc, out, acc.Keys - rest, t);
      rest := rest - {t};
    }
    assert acc.Keys - {} == acc.Keys;
  }

  lemma LessRest(all: set<string>, rest: set<string>, t: string)
    requires t in rest && rest <= all
    ensures all - (rest - {t}) == (all - rest) + {t}
  {
  }

  method Cluster(extract: string -> string, lines: seq<LogLine>) returns (out: seq<Pattern>)
    ensures Clusters(extract, lines, out)
  {
    var acc := Accumulate(extract, lines);
    var listed := ListPatterns(extract, lines, acc);
    SortPatterns(extract, lines, listed);
    out := Sort(listed, PatternLe);
  }

  /** One pattern for each of these templates, in any order. */
  ghost predicate Lists(extract: string -> string, lines: seq<LogLine>, out: seq<Pattern>, templates: set<string>) {
    && multiset(KeysOf(out)) == multiset(KeySet(extract, lines, templates))
    && forall p :: p in out ==> Summarizes(p, Matching(extract, lines, p.template))
  }

  lemma ListOneMore(extract: string -> string, lines: seq<LogLine>, out: seq<Pattern>, done: set<string>, p: Pattern)
    requires Lists(extract, lines, out, done) && p.template !in done
    requires Summarizes(p, Matching(extract, lines, p.template))
    ensures Lists(extract, lines, out + [p], done + {p.template})
  {
    KeysConcat(out, [p]);
    assert KeysOf([p]) == [KeyOf(p)];
    KeySetOneMore(extract, lines, done, KeyOf(p));
  }

  lemma KeySetOneMore(extract: string -> string, lines: seq<LogLine>, done: set<string>, k: Key)
    requires k.template !in done && k.count == |Matching(extract, lines, k.template)|
    ensures multiset(KeySet(extract, lines, done + {k.template}))
         == multiset(KeySet(extract, lines, done)) + multiset{k}
  {
    assert KeySet(extract, lines, done + {k.template}) == KeySet(extract, lines, done) + {k};
    assert k !in KeySet(extract, lines, done);
  }

  lemma SortPatterns(extract: string -> string, lines: seq<LogLine>, out: seq<Pattern>)
    requires Lists(extract, lines, out, Templates(extract, lines))
    ensures Clusters(extract, lines, Sort(out, PatternLe))
  {
    var sorted := Sort(out, PatternLe);
    PatternOrder();
    SortSorts(out, PatternLe);
    SortPermutes(out, PatternLe);
    KeysPermute(out, sorted);
    forall i, j | 0 <= i < j < |sorted| ensures KeyLe(KeysOf(sorted)[i], KeysOf(sorted)[j]) {
      assert PatternLe(sorted[i], sorted[j]);
    }
    forall p | p in sorted ensures p in out {
      assert p in multiset(sorted);
    }
  }

  lemma {:induction false} KeysConcat(a: seq<Pattern>, b: seq<Pattern>)
    ensures KeysOf(a + b) == KeysOf(a) + KeysOf(b)
  {
  }

  lemma {:induction false} KeysPermute(a: seq<Pattern>, b: seq<Pattern>)
    requires multiset(a) == multiset(b)
    ensures multiset(KeysOf(a)) == multiset(KeysOf(b))
  {
    SameSize(a, b);
    if a != [] {
      assert a[0] in multiset(b);
      var j :| 0 <= j < |b| && b[j] == a[0];
      var c := b[..j] + b[j + 1..];
      TakeOut(b, j);
      TakeFirst(a);
      CancelOne(multiset(a[1..]), multiset(c), a[0]);
      KeysPermute(a[1..], c);
    }
  }

  lemma CancelOne(m: multiset<Pattern>, n: multiset<Pattern>, p: Pattern)
    requires m + multiset{p} == n + multiset{p}
    ensures m == n
  {
    assert m == (m + multiset{p}) - multiset{p};
    assert n == (n + multiset{p}) - multiset{p};
  }

  lemma TakeFirst(s: seq<Pattern>)
    requires s != []
    ensures multiset(s) == multiset(s[1..]) + multiset{s[0]}
    ensures multiset(KeysOf(s)) == multiset(KeysOf(s[1..])) + multiset{KeyOf(s[0])}
  {
    assert s == [s[0]] + s[1..];
    KeysConcat([s[0]], s[1..]);
    assert KeysOf([s[0]]) == [KeyOf(s[0])];
  }

  lemma TakeOut(s: seq<Pattern>, j: nat)
    requires j < |s|
    ensures var rest := s[..j] + s[j + 1..];
      && multiset(s) == multiset(rest) + multiset{s[j]}
      && multiset(KeysOf(s)) == multiset(KeysOf(rest)) + multiset{KeyOf(s[j])}
  {
    assert s == s[..j] + [s[j]] + s[j + 1..];
    KeysConcat(s[..j] + [s[j]], s[j + 1..]);
    KeysConcat(s[..j], [s[j]]);
    KeysConcat(s[..j], s[j + 1..]);
    assert KeysOf([s[j]]) == [KeyOf(s[j])];
  }

  // ------------------------------------------------------------------ the output is determined

  /** All but the sample line. */
  predicate SameButSample(p: Pattern, q: Pattern) {
    p.(sample := q.sample) == q
  }

  lemma {:induction false} MatchingFilters(extract: string -> string, lines: seq<LogLine>, t: string, l: LogLine)
    ensures multiset(Matching(extract, lines, t))[l] == if extract(l.line) == t then multiset(lines)[l] else 0
  {
    if lines != [] {
      var front, last := lines[..|lines| - 1], lines[|lines| - 1];
      MatchingFilters(extract, front, t, l);
      assert lines == front + [last];
    }
  }

  /** Reordering the lines reorders those of each template. */
  lemma MatchingPermutes(extract: string -> string, lines: seq<LogLine>, others: seq<LogLine>, t: string)
    requires multiset(lines) == multiset(others)
    ensures multiset(Matching(extract, lines, t)) == multiset(Matching(extract, others, t))
    ensures |Matching(extract, lines, t)| == |Matching(extract, others, t)|
  {
    var a, b := multiset(Matching(extract, lines, t)), multiset(Matching(extract, others, t));
    forall l ensures a[l] == b[l] {
      MatchingFilters(extract, lines, t, l);
      MatchingFilters(extract, others, t, l);
    }
    assert a == b;
    SameSize(Matching(extract, lines, t), Matching(extract, others, t));
  }

  lemma SubPods(m: seq<LogLine>, n: seq<LogLine>)
    requires multiset(m) == multiset(n)
    ensures PodsOf(m) <= PodsOf(n)
  {
    forall p | p in PodsOf(m) ensures p in PodsOf(n) {
      var i :| 0 <= i < |m| && m[i].pod == p;
      assert m[i] in multiset(n);
      var j :| 0 <= j < |n| && n[j] == m[i];
      assert n[j].pod == p;
    }
  }

  lemma SubTemplates(extract: string -> string, m: seq<LogLine>, n: seq<LogLine>)
    requires multiset(m) == multiset(n)
    ensures Templates(extract, m) <= Templates(extract, n)
  {
    forall t | t in Templates(extract, m) ensures t in Templates(extract, n) {
      var i :| 0 <= i < |m| && extract(m[i].line) == t;
      assert m[i] in multiset(n);
      var j :| 0 <= j < |n| && n[j] == m[i];
      assert extract(n[j].line) == t;
    }
  }

  lemma SameEnds(m: seq<LogLine>, n: seq<LogLine>, a: int, b: int)
    requires multiset(m) == multiset(n)
    ensures Earliest(a, m) && Earliest(b, n) ==> a == b
    ensures Latest(a, m) && Latest(b, n) ==> a == b
  {
    forall i | 0 <= i < |m| ensures m[i] in n {
      assert m[i] in multiset(n);
    }
    forall i | 0 <= i < |n| ensures n[i] in m {
      assert n[i] in multiset(m);
    }
  }

  /** A pattern is determined by the bag of its lines, but for the sample. */
  lemma SummaryIsUnique(p: Pattern, q: Pattern, m: seq<LogLine>, n: seq<LogLine>)
    requires multiset(m) == multiset(n)
    requires Summarizes(p, m) && Summarizes(q, n) && p.template == q.template
    ensures SameButSample(p, q) && (m == n ==> p == q)
  {
    SameSize(m, n);
    SubPods(m, n);
    SubPods(n, m);
    StringOrder();
    SortedUnique(p.pods, q.pods, StringLe);
    SameEnds(m, n, p.firstSeen, q.firstSeen);
    SameEnds(m, n, p.lastSeen, q.lastSeen);
  }

  lemma KeySetsAgree(extract: string -> string, lines: seq<LogLine>, others: seq<LogLine>)
    requires multiset(lines) == multiset(others)
    ensures KeySet(extract, lines, Templates(extract, lines)) == KeySet(extract, others, Templates(extract, others))
  {
    SubTemplates(extract, lines, others);
    SubTemplates(extract, others, lines);
    forall t ensures |Matching(extract, lines, t)| == |Matching(extract, others, t)| {
      MatchingPermutes(extract, lines, others, t);
    }
  }

  /** However the lines are ordered and the maps are walked, the patterns come out the same, but
      for their samples; with the lines in the same order the samples agree too. */
  lemma OrderDoesNotMatter(extract: string -> string, lines: seq<LogLine>, others: seq<LogLine>,
                           a: seq<Pattern>, b: seq<Pattern>)
    requires multiset(lines) == multiset(others)
    requires Clusters(extract, lines, a) && Clusters(extract, others, b)
    ensures |a| == |b| && forall i :: 0 <= i < |a| ==> SameButSample(a[i], b[i])
    ensures lines == others ==> a == b
  {
    KeySetsAgree(extract, lines, others);
    KeyOrder();
    SortedUnique(KeysOf(a), KeysOf(b), KeyLe);
    forall i | 0 <= i < |a| ensures SameButSample(a[i], b[i]) && (lines == others ==> a[i] == b[i]) {
      assert KeysOf(a)[i] == KeysOf(b)[i];
      MatchingPermutes(extract, lines, others, a[i].template);
      SummaryIsUnique(a[i], b[i], Matching(extract, lines, a[i].template), Matching(extract, others, a[i].template));
    }
  }

  // ------------------------------------------------------------------ the output partitions the lines

  lemma NoneTwice(s: seq<Key>, bag: set<Key>)
    requires multiset(s) == multiset(bag)
    ensures forall i, j :: 0 <= i < j < |s| ==> s[i] != s[j]
  {
    forall i, j | 0 <= i < j < |s| ensures s[i] != s[j] {
      if s[i] == s[j] {
        TwiceInBag(s, i, j);
        assert false;
      }
    }
  }

  /** No template is listed twice. */
  lemma TemplatesDiffer(extract: string -> string, lines: seq<LogLine>, out: seq<Pattern>)
    requires Clusters(extract, lines, out)
    ensures forall i, j :: 0 <= i < j < |out| ==> out[i].template != out[j].template
  {
    var keys := KeysOf(out);
    NoneTwice(keys, KeySet(extract, lines, Templates(extract, lines)));
    forall i, j | 0 <= i < j < |out| ensures out[i].template != out[j].template {
      assert keys[i] != keys[j];
    }
  }

  /** The templates listed are those of the lines. */
  lemma TemplatesListed(extract: string -> string, lines: seq<LogLine>, out: seq<Pattern>, t: string)
    requires Clusters(extract, lines, out)
    ensures t in Templates(extract, lines) <==> exists i :: 0 <= i < |out| && out[i].template == t
  {
    var keys, bag := KeysOf(out), KeySet(extract, lines, Templates(extract, lines));
    if t in Templates(extract, lines) {
      var k := Key(|Matching(extract, lines, t)|, t);
      assert k in multiset(bag);
      assert k in multiset(keys);
      var i :| 0 <= i < |keys| && keys[i] == k;
      assert out[i].template == t;
    }
    if i :| 0 <= i < |out| && out[i].template == t {
      MatchingIsEmpty(extract, lines, t);
    }
  }

  lemma TwiceInBag(s: seq<Key>, i: nat, j: nat)
    requires i < j < |s| && s[i] == s[j]
    ensures multiset(s)[s[i]] >= 2
  {
    assert s == s[..j] + s[j..];
    assert s[..j][i] == s[i] && s[j..][0] == s[i];
    assert multiset(s) == multiset(s[..j]) + multiset(s[j..]);
  }

  function Counted(out: seq<Pattern>): nat {
    if out == [] then 0 else out[0].count + Counted(out[1..])
  }

  /** The lines of other templates. */
  function Others(extract: string -> string, lines: seq<LogLine>, t: string): seq<LogLine> {
    if lines == [] then []
    else
      var last := lines[|lines| - 1];
      Others(extract, lines[..|lines| - 1], t) + (if extract(last.line) == t then [] else [last])
  }

  lemma {:induction false} OthersSplit(extract: string -> string, lines: seq<LogLine>, t: string, u: string)
    ensures |lines| == |Matching(extract, lines, t)| + |Others(extract, lines, t)|
    ensures u != t ==> Matching(extract, Others(extract, lines, t), u) == Matching(extract, lines, u)
    ensures Matching(extract, Others(extract, lines, t), t) == []
  {
    if lines != [] {
      var front, last := lines[..|lines| - 1], lines[|lines| - 1];
      OthersSplit(extract, front, t, u);
      var o := Others(extract, front, t);
      if extract(last.line) == t {
        assert Others(extract, lines, t) == o;
      } else {
        assert (o + [last])[..|o|] == o;
      }
    }
  }

  lemma {:induction false} CountsCover(extract: string -> string, lines: seq<LogLine>, out: seq<Pattern>)
    requires forall i, j :: 0 <= i < j < |out| ==> out[i].template != out[j].template
    requires forall t :: t in Templates(extract, lines) ==> exists i :: 0 <= i < |out| && out[i].template == t
    requires forall i :: 0 <= i < |out| ==> out[i].count == |Matching(extract, lines, out[i].template)|
    ensures Counted(out) == |lines|
    decreases |out|
  {
    if out == [] {
      assert |lines| > 0 ==> extract(lines[0].line) in Templates(extract, lines);
    } else {
      var t, tail := out[0].template, out[1..];
      var rest := Others(extract, lines, t);
      OthersSplit(extract, lines, t, t);
      forall u | u in Templates(extract, rest) ensures exists i :: 0 <= i < |tail| && tail[i].template == u {
        OthersSplit(extract, lines, t, u);
        MatchingIsEmpty(extract, rest, u);
        MatchingIsEmpty(extract, lines, u);
        var i :| 0 <= i < |out| && out[i].template == u;
        assert i > 0 && tail[i - 1] == out[i];
      }
      forall i | 0 <= i < |tail| ensures tail[i].count == |Matching(extract, rest, tail[i].template)| {
        assert tail[i] == out[i + 1];
        OthersSplit(extract, lines, t, tail[i].template);
      }
      CountsCover(extract, rest, tail);
    }
  }

  /** Every line is counted once. */
  lemma CountsSumToLines(extract: string -> string, lines: seq<LogLine>, out: seq<Pattern>)
    requires Clusters(extract, lines, out)
    ensures Counted(out) == |lines|
  {
    TemplatesDiffer(extract, lines, out);
    forall t | t in Templates(extract, lines) ensures exists i :: 0 <= i < |out| && out[i].template == t {
      TemplatesListed(extract, lines, out, t);
    }
    CountsCover(extract, lines, out);
  }

  /** The sample is the first line of its template in the input. */
  lemma {:induction false} FirstMatching(extract: string -> string, lines: seq<LogLine>, t: string)
    requires t in Templates(extract, lines)
    ensures Matching(extract, lines, t) != []
    ensures exists i :: 0 <= i < |lines| && lines[i] == Matching(extract, lines, t)[0] && extract(lines[i].line) == t
              && forall j :: 0 <= j < i ==> extract(lines[j].line) != t
    decreases |lines|
  {
    assert lines != [];
    var front, last := lines[..|lines| - 1], lines[|lines| - 1];
    assert lines == front + [last];
    TemplatesOneMore(extract, front, last);
    if t in Templates(extract, front) {
      FirstMatching(extract, front, t);
      var i :| 0 <= i < |front| && front[i] == Matching(extract, front, t)[0] && extract(front[i].line) == t
        && forall j :: 0 <= j < i ==> extract(front[j].line) != t;
      assert lines[i] == front[i];
      assert forall j :: 0 <= j < i ==> lines[j] == front[j];
    } else {
      MatchingIsEmpty(extract, front, t);
      forall j | 0 <= j < |front| ensures extract(lines[j].line) != t {
        assert lines[j] == front[j];
        assert extract(front[j].line) in Templates(extract, front);
      }
    }
  }

  // ------------------------------------------------------------------ the order of the output

  /** a and b agree up to k and no farther, and there a is the smaller. */
  predicate SmallerAt(a: string, b: string, k: int) {
    0 <= k < |a| && k < |b| && a[k] < b[k] && forall j :: 0 <= j < k ==> a[j] == b[j]
  }

  /** a comes strictly before b in the order of their characters. */
  ghost predicate Before(a: string, b: string) {
    (|a| < |b| && a <= b) || exists k :: SmallerAt(a, b, k)
  }

  lemma {:induction false} StringLeMeans(a: string, b: string)
    ensures StringLe(a, b) <==> a == b || Before(a, b)
  {
    if a != [] && b != [] {
      StringLeMeans(a[1..], b[1..]);
      SameHead(a, b);
      assert a[0] < b[0] ==> SmallerAt(a, b, 0);
    }
  }

  lemma SameHead(a: string, b: string)
    requires a != [] && b != []
    ensures a[0] == b[0] ==> (Before(a, b) <==> Before(a[1..], b[1..]))
    ensures a[0] == b[0] ==> (a == b <==> a[1..] == b[1..])
  {
    assert a == [a[0]] + a[1..] && b == [b[0]] + b[1..];
    if k :| SmallerAt(a, b, k) {
      assert a[0] == b[0] ==> SmallerAt(a[1..], b[1..], k - 1);
    }
    if k :| SmallerAt(a[1..], b[1..], k) {
      assert a[0] == b[0] ==> SmallerAt(a, b, k + 1);
    }
  }

  /** The most frequent patterns come first, equally frequent ones by template. */
  lemma MostFrequentFirst(extract: string -> string, lines: seq<LogLine>, out: seq<Pattern>, i: nat, j: nat)
    requires Clusters(extract, lines, out) && i < j < |out|
    ensures out[i].count > out[j].count || (out[i].count == out[j].count && Before(out[i].template, out[j].template))
  {
    assert KeyLe(KeysOf(out)[i], KeysOf(out)[j]);
    TemplatesDiffer(extract, lines, out);
    StringLeMeans(out[i].template, out[j].template);
  }

  /** A pattern's lines are those its template is extracted from, in their order. */
  lemma {:induction false} MatchingConcat(extract: string -> string, a: seq<LogLine>, b: seq<LogLine>, t: string)
    ensures Matching(extract, a + b, t) == Matching(extract, a, t) + Matching(extract, b, t)
  {
    if b == [] {
      assert a + b == a;
    } else {
      assert (a + b)[..|a + b| - 1] == a + b[..|b| - 1];
      MatchingConcat(extract, a, b[..|b| - 1], t);
    }
  }
}
