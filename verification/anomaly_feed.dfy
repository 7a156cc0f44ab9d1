/** The cache of recent anomalies and the handler that serves it, against the full history. */
module AnomalyFeed {
  import opened Basics

  /** `resource` is "namespace/kind/name" or "kind/name", when there is one. */
  datatype Anomaly = Anomaly(resource: Option<string>, timestamp: int, confidence: int)

  const CAPACITY := 1000
  const TRIM := 100
  const DEFAULT_LIMIT := 50

  /** The resource id starts with the namespace and a slash. */
  predicate InNamespace(a: Anomaly, namespace: string) {
    && a.resource.Some?
    && |a.resource.value| > |namespace|
    && a.resource.value[..|namespace| + 1] == namespace + "/"
  }

  function Filter(s: seq<Anomaly>, namespace: string): seq<Anomaly> {
    if s == [] then []
    else
      var last := s[|s| - 1];
      Filter(s[..|s| - 1], namespace) + (if InNamespace(last, namespace) then [last] else [])
  }

  /** What GetAnomalies selects; no namespace selects everything. */
  function Selected(s: seq<Anomaly>, namespace: string): seq<Anomaly> {
    if namespace == "" then s else Filter(s, namespace)
  }

  function Reversed(s: seq<Anomaly>): (r: seq<Anomaly>)
    ensures |r| == |s|
    ensures forall i :: 0 <= i < |s| ==> r[i] == s[|s| - 1 - i]
  {
    if s == [] then [] else [s[|s| - 1]] + Reversed(s[..|s| - 1])
  }

  /** The last n elements, newest first. */
  function Newest(s: seq<Anomaly>, n: nat): seq<Anomaly> {
    Reversed(s[|s| - Min(n, |s|)..])
  }

  /** The cache after the last of these records. */
  function Cache(history: seq<Anomaly>): seq<Anomaly> {
    if history == [] then [] else Recorded(Cache(history[..|history| - 1]), history[|history| - 1])
  }

  lemma CacheGrows(history: seq<Anomaly>, a: Anomaly)
    ensures Cache(history + [a]) == Recorded(Cache(history), a)
  {
    assert (history + [a])[..|history|] == history;
  }

  function Recorded(cache: seq<Anomaly>, a: Anomaly): seq<Anomaly> {
    Trimmed(cache) + [a]
  }

  function Trimmed(cache: seq<Anomaly>): seq<Anomaly> {
    if |cache| >= CAPACITY then cache[TRIM..] else cache
  }

  /** The limit query parameter: a positive number, or the default. */
  function LimitOf(parameter: Option<int>): nat {
    if parameter.Some? && parameter.value > 0 then parameter.value else DEFAULT_LIMIT
  }

  /** What the handler answers from a cache. */
  function Served(cache: seq<Anomaly>, namespace: string, limit: nat): seq<Anomaly> {
    Newest(Selected(cache, namespace), limit)
  }

  /** The cache is a slice: `count` cells of a buffer, from `start` on. */
  class Pipeline {
    var buffer: array<Anomaly>
    var start: nat
    var count: nat
    ghost var history: seq<Anomaly>

    ghost function Recent(): seq<Anomaly>
      requires start + count <= buffer.Length
      reads this, buffer
    {
      buffer[start..start + count]
    }

    ghost predicate Valid()
      reads this, buffer
    {
      start + count <= buffer.Length && Recent() == Cache(history)
    }

    constructor ()
      ensures Valid() && fresh(buffer) && history == []
    {
      buffer, start, count, history := new Anomaly[0], 0, 0, [];
    }

    /** Moves a full slice to a larger buffer. */
    method MakeRoom()
      requires start + count <= buffer.Length
      modifies this`buffer, this`start
      ensures start + count < buffer.Length && Recent() == old(Recent())
      ensures fresh(buffer) || buffer == old(buffer)
    {
      if start + count == buffer.Length {
        var grown := new Anomaly[2 * count + 1];
        forall i | 0 <= i < count {
          grown[i] := buffer[start + i];
        }
        assert grown[0..0 + count] == buffer[start..start + count];
        buffer, start := grown, 0;
      }
    }

    /** Drops the oldest hundred of a full cache. */
    method Trim()
      requires start + count <= buffer.Length
      modifies this`start, this`count
      ensures start + count <= buffer.Length
      ensures Recent() == Trimmed(old(Recent()))
    {
      if count >= CAPACITY {
        start, count := start + TRIM, count - TRIM;
      }
    }

    method RecordAnomaly(a: Anomaly)
      requires Valid()
      modifies this, buffer
      ensures Valid() && history == old(history) + [a]
      ensures fresh(buffer) || buffer == old(buffer)
    {
      Store(a);
      CacheGrows(history, a);
      history := history + [a];
    }

    /** Trims, and appends in place if there is room. */
    method Store(a: Anomaly)
      requires start + count <= buffer.Length
      modifies this`buffer, this`start, this`count, buffer
      ensures start + count <= buffer.Length && Recent() == Recorded(old(Recent()), a)
      ensures fresh(buffer) || buffer == old(buffer)
    {
      Trim();
      MakeRoom();
      Append(a);
    }

    method Append(a: Anomaly)
      requires start + count < buffer.Length
      modifies this`count, buffer
      ensures start + count <= buffer.Length && Recent() == old(Recent()) + [a]
    {
      buffer[start + count] := a;
      count := count + 1;
    }

    /** A copy in an array of its own, of everything or of the matching records. */
    method GetAnomalies(namespace: string) returns (result: array<Anomaly>)
      requires Valid()
      ensures fresh(result) && result[..] == Selected(Recent(), namespace)
    {
      var selected: seq<Anomaly> := [];
      if namespace == "" {
        selected := buffer[start..start + count];
      } else {
        selected := FilterSlice(namespace);
      }
      result := new Anomaly[|selected|](i requires 0 <= i < |selected| => selected[i]);
    }

    method FilterSlice(namespace: string) returns (filtered: seq<Anomaly>)
      requires Valid()
      ensures filtered == Filter(Recent(), namespace)
    {
      filtered := [];
      for i := 0 to count
        invariant filtered == Filter(Recent()[..i], namespace)
      {
        assert Recent()[..i + 1][..i] == Recent()[..i];
        if InNamespace(buffer[start + i], namespace) {
          filtered := filtered + [buffer[start + i]];
        }
      }
      assert Recent()[..count] == Recent();
    }

    /** Answers newest first.  The tail is cut and reversed in place; the cache keeps every
        cell of its buffer because what is reversed is a copy. */
    method HandlePipelineAnomalies(namespace: string, parameter: Option<int>) returns (answer: seq<Anomaly>)
      requires Valid()
      ensures Valid() && buffer == old(buffer) && buffer[..] == old(buffer[..]) && history == old(history)
      ensures answer == Served(Cache(history), namespace, LimitOf(parameter))
    {
      var limit := LimitOf(parameter);
      var anomalies := GetAnomalies(namespace);
      var start := if anomalies.Length > limit then anomalies.Length - limit else 0;
      ReverseFrom(anomalies, start);
      answer := anomalies[..][start..];
    }
  }

  /** Reverses a[start..] with two indices. */
  method ReverseFrom(a: array<Anomaly>, start: nat)
    requires start <= a.Length
    modifies a
    ensures a[..] == old(a[..])[..start] + Reversed(old(a[..])[start..])
  {
    var i, j := start, a.Length - 1;
    ghost var was, m := a[..], start + a.Length - 1;
    while i < j
      invariant start <= i <= j + 1 && i + j == m
      invariant forall k :: start <= k < i ==> a[k] == was[m - k]
      invariant forall k :: j < k < a.Length ==> a[k] == was[m - k]
      invariant forall k :: i <= k <= j ==> a[k] == was[k]
      invariant forall k :: 0 <= k < start ==> a[k] == was[k]
    {
      a[i], a[j] := a[j], a[i];
      i, j := i + 1, j - 1;
    }
    ReversedTail(was, a[..], start);
  }

  lemma ReversedTail(was: seq<Anomaly>, now: seq<Anomaly>, start: nat)
    requires start <= |was| == |now|
    requires forall k :: start <= k < |now| ==> now[k] == was[start + |was| - 1 - k]
    requires forall k :: 0 <= k < start ==> now[k] == was[k]
    ensures now == was[..start] + Reversed(was[start..])
  {
  }

  // ------------------------------------------------------------------ the cache against the history

  /** How many records are kept of so many. */
  function Kept(total: nat): nat {
    if total <= CAPACITY then total else CAPACITY - TRIM + 1 + (total - CAPACITY - 1) % TRIM
  }

  lemma KeptSteps(total: nat)
    ensures Kept(total + 1) == if Kept(total) >= CAPACITY then Kept(total) - TRIM + 1 else Kept(total) + 1
    ensures Min(total, CAPACITY - TRIM + 1) <= Kept(total) <= Min(total, CAPACITY)
  {
  }

  /** The cache is the end of the history, of a length that depends on nothing but its length. */
  lemma {:induction false} CacheIsSuffix(history: seq<Anomaly>)
    ensures KeepsEnd(Cache(history), history)
  {
    if history != [] {
      var front, last := history[..|history| - 1], history[|history| - 1];
      assert history == front + [last];
      CacheIsSuffix(front);
      KeepsEndStep(Cache(front), front, last);
      CacheGrows(front, last);
    }
  }

  /** c is the last so many of the records. */
  predicate KeepsEnd(c: seq<Anomaly>, history: seq<Anomaly>) {
    |c| == Kept(|history|) <= |history| && c == history[|history| - |c|..]
  }

  lemma KeepsEndStep(c: seq<Anomaly>, history: seq<Anomaly>, a: Anomaly)
    requires KeepsEnd(c, history)
    ensures KeepsEnd(Recorded(c, a), history + [a])
  {
    KeptSteps(|history|);
    SuffixGrows(history, |c|, a);
  }

  lemma SuffixGrows(s: seq<Anomaly>, k: nat, a: Anomaly)
    requires k <= |s|
    ensures var n := if k >= CAPACITY then k - TRIM + 1 else k + 1;
      Recorded(s[|s| - k..], a) == (s + [a])[|s| + 1 - n..]
  {
  }

  /** At most the capacity, at least all or 901 of the records. */
  lemma CacheBounds(history: seq<Anomaly>)
    ensures Min(|history|, 901) <= |Cache(history)| <= Min(|history|, 1000)
  {
    CacheIsSuffix(history);
    KeptSteps(|history|);
  }

  // ------------------------------------------------------------------ what is served

  /** The newest of a suffix are the newest of the whole exactly when the suffix has that many. */
  lemma NewestOfSuffix(all: seq<Anomaly>, held: seq<Anomaly>, limit: nat)
    requires |held| <= |all| && held == all[|all| - |held|..]
    ensures Newest(held, limit) == Newest(all, limit) <==> Min(limit, |all|) <= |held|
  {
    assert |Newest(held, limit)| == Min(limit, |held|) && |Newest(all, limit)| == Min(limit, |all|);
    if Min(limit, |all|) <= |held| {
      assert held[|held| - Min(limit, |held|)..] == all[|all| - Min(limit, |all|)..];
    }
  }

  lemma CacheIsTail(history: seq<Anomaly>)
    ensures |Cache(history)| <= |history| && Cache(history) == history[|history| - |Cache(history)|..]
  {
    CacheIsSuffix(history);
  }

  /** The request without a namespace is answered as if from the full history exactly when the
      cache still holds as many records as were asked for, or all there are. */
  lemma ServedFromHistory(history: seq<Anomaly>, limit: nat)
    ensures Served(Cache(history), "", limit) == Newest(history, limit) <==> Min(limit, |history|) <= |Cache(history)|
  {
    CacheIsTail(history);
    NewestOfSuffix(history, Cache(history), limit);
  }

  lemma NotHonouredBeyond901(history: seq<Anomaly>, limit: nat)
    requires limit > 901 && |history| == 1001
    ensures Served(Cache(history), "", limit) != Newest(history, limit)
  {
    CacheIsSuffix(history);
    ServedFromHistory(history, limit);
  }

  /** The limits the cache honours whatever has happened are exactly those up to 901. */
  lemma HonouredLimits(limit: nat)
    ensures (forall history :: Served(Cache(history), "", limit) == Newest(history, limit)) <==> limit <= 901
  {
    if limit <= 901 {
      forall history ensures Served(Cache(history), "", limit) == Newest(history, limit) {
        ServedFromHistory(history, limit);
        CacheBounds(history);
      }
    } else {
      var history := seq(1001, _ => Anomaly(None, 0, 0));
      NotHonouredBeyond901(history, limit);
    }
  }

  lemma {:induction false} FilterConcat(a: seq<Anomaly>, b: seq<Anomaly>, namespace: string)
    ensures Filter(a + b, namespace) == Filter(a, namespace) + Filter(b, namespace)
  {
    if b == [] {
      assert a + b == a;
    } else {
      assert (a + b)[..|a + b| - 1] == a + b[..|b| - 1];
      FilterConcat(a, b[..|b| - 1], namespace);
    }
  }

  lemma FilterOfCache(history: seq<Anomaly>, namespace: string)
    ensures var lost := Filter(history[..|history| - Kept(|history|)], namespace);
      && Kept(|history|) <= |history|
      && Filter(history, namespace) == lost + Filter(Cache(history), namespace)
  {
    CacheIsSuffix(history);
    var n := |history| - Kept(|history|);
    assert history == history[..n] + history[n..];
    FilterConcat(history[..n], history[n..], namespace);
  }

  /** With a namespace the answer is that of the full history exactly when the cache still
      holds as many matches as were asked for, or all there are. */
  lemma ServedForNamespace(history: seq<Anomaly>, namespace: string, limit: nat)
    requires namespace != ""
    ensures Served(Cache(history), namespace, limit) == Newest(Filter(history, namespace), limit) <==>
            Min(limit, |Filter(history, namespace)|) <= |Filter(Cache(history), namespace)|
  {
    FilterOfCache(history, namespace);
    NewestOfSuffix(Filter(history, namespace), Filter(Cache(history), namespace), limit);
  }

  /** One record of a namespace is trimmed away by a thousand others. */
  lemma NamespaceCanLoseAll(history: seq<Anomaly>, namespace: string, limit: nat)
    requires |history| == 1001 && namespace != "" && limit > 0
    requires InNamespace(history[0], namespace)
    requires forall i :: 0 < i < |history| ==> !InNamespace(history[i], namespace)
    ensures Served(Cache(history), namespace, limit) == []
    ensures Newest(Filter(history, namespace), limit) != []
  {
    CacheIsSuffix(history);
    FilterNone(Cache(history), namespace);
    FilterSome(history, namespace);
  }

  /** So with a namespace no limit is honoured whatever has happened, except none at all. */
  lemma NamespaceLimits(namespace: string, limit: nat)
    requires namespace != ""
    ensures (forall history :: Served(Cache(history), namespace, limit) == Newest(Filter(history, namespace), limit))
            <==> limit == 0
  {
    if limit == 0 {
      forall history ensures Served(Cache(history), namespace, limit) == Newest(Filter(history, namespace), limit) {
        ServedForNamespace(history, namespace, limit);
      }
    } else {
      var first, other := Anomaly(Some(namespace + "/"), 0, 0), Anomaly(None, 0, 0);
      assert first.resource.value[..|namespace| + 1] == namespace + "/";
      var history := [first] + seq(1000, _ => other);
      assert forall i :: 0 < i < |history| ==> history[i] == other;
      NamespaceCanLoseAll(history, namespace, limit);
    }
  }

  lemma {:induction false} FilterSome(s: seq<Anomaly>, namespace: string)
    requires exists i :: 0 <= i < |s| && InNamespace(s[i], namespace)
    ensures Filter(s, namespace) != []
  {
    if !InNamespace(s[|s| - 1], namespace) {
      FilterSome(s[..|s| - 1], namespace);
    }
  }

  lemma {:induction false} FilterNone(s: seq<Anomaly>, namespace: string)
    requires forall i :: 0 <= i < |s| ==> !InNamespace(s[i], namespace)
    ensures Filter(s, namespace) == []
  {
    if s != [] {
      FilterNone(s[..|s| - 1], namespace);
    }
  }

  // ------------------------------------------------------------------ what is asked for

  /** A namespace matches whole: "prod" is not the namespace of "production/pod/x". */
  lemma InNamespaceMeans(a: Anomaly, namespace: string)
    ensures InNamespace(a, namespace) <==> exists rest :: a.resource == Some(namespace + "/" + rest)
  {
    if InNamespace(a, namespace) {
      var r := a.resource.value;
      assert r == namespace + "/" + r[|namespace| + 1..];
    }
    if rest :| a.resource == Some(namespace + "/" + rest) {
      assert a.resource.value[..|namespace| + 1] == namespace + "/";
    }
  }

  /** The filter keeps each matching record as often as it is there. */
  lemma {:induction false} FilterMeans(s: seq<Anomaly>, namespace: string, a: Anomaly)
    ensures multiset(Filter(s, namespace))[a] == if InNamespace(a, namespace) then multiset(s)[a] else 0
  {
    if s != [] {
      var front, last := s[..|s| - 1], s[|s| - 1];
      FilterMeans(front, namespace, a);
      assert s == front + [last];
    }
  }

  /** At most so many, counted back from the end; fifty unless a positive number is given. */
  lemma NewestMeans(s: seq<Anomaly>, parameter: Option<int>)
    ensures var n := if parameter.Some? && parameter.value >= 1 then parameter.value else 50;
      var r := Newest(s, LimitOf(parameter));
      |r| == Min(n, |s|) && forall i :: 0 <= i < |r| ==> r[i] == s[|s| - 1 - i]
  {
  }
}
