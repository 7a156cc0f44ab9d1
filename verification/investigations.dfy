/** The investigation tables of the SQLite store: saving in a transaction, deleting, reading back. */
module Investigations {
  import opened Basics
  import opened Sorting

  datatype Finding = Finding(statement: string, evidence: string, confidence: int, severity: string, timestamp: int)
  datatype ToolCall = ToolCall(tool: string, args: string, result: string, turn: int, timestamp: int)
  datatype Step = Step(number: int, description: string, result: string, timestamp: int)

  /** The columns an upsert leaves alone when the row exists. */
  datatype Frozen = Frozen(kind: string, description: string, createdAt: int)
  /** The columns it overwrites. */
  datatype Current = Current(state: string, context: string, conclusion: string, confidence: int, metadata: string,
                             updatedAt: int)
  datatype Row = Row(frozen: Frozen, current: Current)

  datatype Record = Record(id: string, row: Row, findings: seq<Finding>, toolCalls: seq<ToolCall>, steps: seq<Step>)

  /** A row of a child table. */
  datatype Owned<+T> = Owned(owner: string, item: T)

  /** Child tables are kept in the order of their AUTOINCREMENT ids. */
  datatype Tables = Tables(
    investigations: map<string, Row>,
    findings: seq<Owned<Finding>>,
    toolCalls: seq<Owned<ToolCall>>,
    steps: seq<Owned<Step>>)

  const EMPTY := Tables(map[], [], [], [])

  // ------------------------------------------------------------------ statements

  function Without<T>(rows: seq<Owned<T>>, id: string): seq<Owned<T>> {
    if rows == [] then []
    else
      var last := rows[|rows| - 1];
      Without(rows[..|rows| - 1], id) + (if last.owner == id then [] else [last])
  }

  function OwnedBy<T>(id: string, items: seq<T>): (r: seq<Owned<T>>)
    ensures |r| == |items| && forall i :: 0 <= i < |r| ==> r[i] == Owned(id, items[i])
  {
    if items == [] then [] else OwnedBy(id, items[..|items| - 1]) + [Owned(id, items[|items| - 1])]
  }

  /** What a query for one investigation selects, in the order of ids. */
  function ItemsOf<T>(rows: seq<Owned<T>>, id: string): seq<T> {
    if rows == [] then []
    else
      var last := rows[|rows| - 1];
      ItemsOf(rows[..|rows| - 1], id) + (if last.owner == id then [last.item] else [])
  }

  function Upsert(rows: map<string, Row>, id: string, row: Row): map<string, Row> {
    rows[id := if id in rows then row.(frozen := rows[id].frozen) else row]
  }

  function Saved(t: Tables, rec: Record): Tables {
    Tables(
      Upsert(t.investigations, rec.id, rec.row),
      Without(t.findings, rec.id) + OwnedBy(rec.id, rec.findings),
      Without(t.toolCalls, rec.id) + OwnedBy(rec.id, rec.toolCalls),
      Without(t.steps, rec.id) + OwnedBy(rec.id, rec.steps))
  }

  /** Children go with a row that is really deleted, if at all.  Whether they do depends on
      the connection the pool picks: the pragma that enforces foreign keys was set on one
      connection only. */
  function Deleted(t: Tables, id: string, cascade: bool): Tables {
    if id !in t.investigations then t
    else if cascade then
      Tables(t.investigations - {id}, Without(t.findings, id), Without(t.toolCalls, id), Without(t.steps, id))
    else t.(investigations := t.investigations - {id})
  }

  /** Begin, upsert, three deletes, one insert per child, commit. */
  function StatementsOf(rec: Record): nat {
    6 + |rec.findings| + |rec.toolCalls| + |rec.steps|
  }

  // ------------------------------------------------------------------ reading back

  predicate ByTurn(a: ToolCall, b: ToolCall) { a.turn <= b.turn }
  predicate ByNumber(a: Step, b: Step) { a.number <= b.number }

  /** SQL orders by one column and says nothing about ties. */
  ghost predicate Arranged<T>(s: seq<T>, items: seq<T>, le: (T, T) -> bool) {
    multiset(s) == multiset(items) && SortedBy(s, le)
  }

  /** What a read of the saved record may return. */
  ghost predicate ReadsBack(saved: Option<Record>, answer: Option<Record>) {
    match (saved, answer)
    case (None, None) => true
    case (Some(s), Some(a)) =>
      && a.id == s.id && a.row == s.row && a.findings == s.findings
      && Arranged(a.toolCalls, s.toolCalls, ByTurn) && Arranged(a.steps, s.steps, ByNumber)
    case (_, _) => false
  }

  /** The rows of one investigation. */
  function Stored(t: Tables, id: string): Option<Record> {
    if id !in t.investigations then None
    else Some(Record(id, t.investigations[id], ItemsOf(t.findings, id), ItemsOf(t.toolCalls, id), ItemsOf(t.steps, id)))
  }

  method Select<T>(rows: seq<Owned<T>>, id: string) returns (items: seq<T>)
    ensures items == ItemsOf(rows, id)
  {
    items := [];
    for i := 0 to |rows|
      invariant items == ItemsOf(rows[..i], id)
    {
      assert rows[..i + 1][..i] == rows[..i];
      if rows[i].owner == id {
        items := items + [rows[i].item];
      }
    }
    assert rows[..|rows|] == rows;
  }

  /** Replaces the children of one investigation inside a transaction, unless the statement
      number `left` from here fails. */
  method ReplaceChildren<T>(rows: seq<Owned<T>>, id: string, items: seq<T>, left: nat)
    returns (ok: bool, now: seq<Owned<T>>, rest: nat)
    ensures ok <==> left > |items|
    ensures ok ==> now == Without(rows, id) + OwnedBy(id, items) && rest == left - |items| - 1
  {
    now, rest := rows, left;
    if rest == 0 {
      return false, now, rest;
    }
    now, rest := Without(rows, id), rest - 1;
    for i := 0 to |items|
      invariant rest == left - 1 - i
      invariant now == Without(rows, id) + OwnedBy(id, items[..i])
    {
      if rest == 0 {
        return false, now, rest;
      }
      assert items[..i + 1][..i] == items[..i];
      now, rest := now + [Owned(id, items[i])], rest - 1;
    }
    assert items[..|items|] == items;
    ok := true;
  }

  class Store {
    var tables: Tables

    constructor ()
      ensures tables == EMPTY
    {
      tables := EMPTY;
    }

    /** `failAt` is the statement that fails, if the transaction has that many. */
    method SaveInvestigation(rec: Record, failAt: nat) returns (ok: bool)
      modifies this
      ensures ok <==> failAt >= StatementsOf(rec)
      ensures tables == After(old(tables), Save(rec, failAt))
    {
      if failAt < 2 {
        return false;
      }
      var rows := Upsert(tables.investigations, rec.id, rec.row);
      var left := failAt - 2;
      var findings, toolCalls, steps;
      ok, findings, left := ReplaceChildren(tables.findings, rec.id, rec.findings, left);
      if !ok {
        return;
      }
      ok, toolCalls, left := ReplaceChildren(tables.toolCalls, rec.id, rec.toolCalls, left);
      if !ok {
        return;
      }
      ok, steps, left := ReplaceChildren(tables.steps, rec.id, rec.steps, left);
      if !ok {
        return;
      }
      if left == 0 {
        return false;
      }
      tables := Tables(rows, findings, toolCalls, steps);
    }

    method DeleteInvestigation(id: string, cascade: bool, fails: bool) returns (ok: bool)
      modifies this
      ensures ok == !fails
      ensures tables == After(old(tables), Delete(id, cascade, fails))
    {
      if fails {
        return false;
      }
      tables := Deleted(tables, id, cascade);
      ok := true;
    }

    /** One of the answers SQL may give. */
    method GetInvestigation(id: string) returns (answer: Option<Record>)
      ensures ReadsBack(Stored(tables, id), answer)
    {
      if id !in tables.investigations {
        return None;
      }
      var findings := Select(tables.findings, id);
      var toolCalls := Select(tables.toolCalls, id);
      var steps := Select(tables.steps, id);
      SortPermutes(toolCalls, ByTurn);
      SortSorts(toolCalls, ByTurn);
      SortPermutes(steps, ByNumber);
      SortSorts(steps, ByNumber);
      answer := Some(Record(id, tables.investigations[id], findings, Sort(toolCalls, ByTurn), Sort(steps, ByNumber)));
    }
  }

  // ------------------------------------------------------------------ one statement at a time

  lemma {:induction false} ItemsOfConcat<T>(a: seq<Owned<T>>, b: seq<Owned<T>>, id: string)
    ensures ItemsOf(a + b, id) == ItemsOf(a, id) + ItemsOf(b, id)
  {
    if b == [] {
      assert a + b == a;
    } else {
      assert (a + b)[..|a + b| - 1] == a + b[..|b| - 1];
      ItemsOfConcat(a, b[..|b| - 1], id);
    }
  }

  lemma ItemsOfOne<T>(row: Owned<T>, id: string)
    ensures ItemsOf([row], id) == if row.owner == id then [row.item] else []
  {
    assert [row][..0] == [];
  }

  lemma {:induction false} ItemsOfWithout<T>(rows: seq<Owned<T>>, id: string, other: string)
    ensures ItemsOf(Without(rows, id), other) == if other == id then [] else ItemsOf(rows, other)
  {
    if rows != [] {
      var front, last := rows[..|rows| - 1], rows[|rows| - 1];
      ItemsOfWithout(front, id, other);
      ItemsOfConcat(Without(front, id), if last.owner == id then [] else [last], other);
      ItemsOfOne(last, other);
    }
  }

  lemma {:induction false} ItemsOfOwned<T>(id: string, items: seq<T>, other: string)
    ensures ItemsOf(OwnedBy(id, items), other) == if other == id then items else []
  {
    if items != [] {
      var front := items[..|items| - 1];
      ItemsOfOwned(id, front, other);
      var owned := OwnedBy(id, items);
      assert owned[..|owned| - 1] == OwnedBy(id, front) && owned[|owned| - 1] == Owned(id, items[|items| - 1]);
      assert items == front + [items[|items| - 1]];
    }
  }

  lemma ItemsOfReplaced<T>(rows: seq<Owned<T>>, id: string, items: seq<T>, other: string)
    ensures ItemsOf(Without(rows, id) + OwnedBy(id, items), other)
         == if other == id then items else ItemsOf(rows, other)
  {
    ItemsOfConcat(Without(rows, id), OwnedBy(id, items), other);
    ItemsOfWithout(rows, id, other);
    ItemsOfOwned(id, items, other);
  }

  /** A save touches one investigation, and clears whatever an earlier one of that id left. */
  lemma StoredAfterSave(t: Tables, rec: Record, id: string)
    ensures Stored(Saved(t, rec), id) ==
            if id != rec.id then Stored(t, id)
            else if rec.id in t.investigations
            then Some(rec.(row := rec.row.(frozen := t.investigations[rec.id].frozen)))
            else Some(rec)
  {
    ItemsOfReplaced(t.findings, rec.id, rec.findings, id);
    ItemsOfReplaced(t.toolCalls, rec.id, rec.toolCalls, id);
    ItemsOfReplaced(t.steps, rec.id, rec.steps, id);
  }

  lemma StoredAfterDelete(t: Tables, id: string, cascade: bool, other: string)
    ensures Stored(Deleted(t, id, cascade), other) == if other == id then None else Stored(t, other)
  {
    ItemsOfWithout(t.findings, id, other);
    ItemsOfWithout(t.toolCalls, id, other);
    ItemsOfWithout(t.steps, id, other);
  }

  // ------------------------------------------------------------------ runs

  /** One call; a failed one is rolled back. */
  datatype Call =
    | Save(rec: Record, failAt: nat)
    | Delete(id: string, cascade: bool, fails: bool)

  predicate Saves(c: Call, id: string) {
    c.Save? && c.rec.id == id && c.failAt >= StatementsOf(c.rec)
  }

  predicate Deletes(c: Call, id: string) {
    c.Delete? && c.id == id && !c.fails
  }

  function After(t: Tables, c: Call): Tables {
    match c
    case Save(rec, failAt) => if failAt >= StatementsOf(rec) then Saved(t, rec) else t
    case Delete(id, cascade, fails) => if fails then t else Deleted(t, id, cascade)
  }

  function RunCalls(calls: seq<Call>): Tables {
    if calls == [] then EMPTY else After(RunCalls(calls[..|calls| - 1]), calls[|calls| - 1])
  }

  /** Call n saved the id, and nothing has saved or deleted it since. */
  ghost predicate LastSave(calls: seq<Call>, id: string, n: nat) {
    && n < |calls| && Saves(calls[n], id)
    && forall k :: n < k < |calls| ==> !Saves(calls[k], id) && !Deletes(calls[k], id)
  }

  /** Call m is the first save of the id since it was last deleted. */
  ghost predicate FirstSave(calls: seq<Call>, id: string, m: nat) {
    && m < |calls| && Saves(calls[m], id)
    && (forall k :: m < k < |calls| ==> !Deletes(calls[k], id))
    && (forall k :: 0 <= k < m && Saves(calls[k], id) ==> exists d :: k < d < m && Deletes(calls[d], id))
  }

  /** The id was never saved, or deleted after its last save. */
  ghost predicate Absent(calls: seq<Call>, id: string) {
    forall k :: 0 <= k < |calls| && Saves(calls[k], id) ==> exists d :: k < d < |calls| && Deletes(calls[d], id)
  }

  ghost predicate IsSaved(calls: seq<Call>, id: string, m: nat, n: nat, stored: Record) {
    && FirstSave(calls, id, m) && LastSave(calls, id, n)
    && stored == calls[n].rec.(row := calls[n].rec.row.(frozen := calls[m].rec.row.frozen))
  }

  /** Nothing when the id is absent, or its last save with the frozen columns of its first. */
  ghost predicate Correct(calls: seq<Call>, id: string, stored: Option<Record>) {
    match stored
    case None => Absent(calls, id)
    case Some(rec) => exists m: nat, n: nat :: IsSaved(calls, id, m, n, rec)
  }

  lemma {:induction false} StoredIsLastSave(calls: seq<Call>, id: string)
    ensures Correct(calls, id, Stored(RunCalls(calls), id))
  {
    if calls != [] {
      var prev, c := calls[..|calls| - 1], calls[|calls| - 1];
      var t := RunCalls(prev);
      assert calls == prev + [c];
      StoredIsLastSave(prev, id);
      if Saves(c, id) {
        CorrectAfterSave(prev, c, id, t);
      } else if Deletes(c, id) {
        StoredAfterDelete(t, id, c.cascade, id);
        assert Deletes(calls[|prev|], id);
      } else {
        OtherCall(t, c, id);
        CorrectAfterOther(prev, c, id, Stored(t, id));
      }
    }
  }

  lemma CorrectAfterSave(prev: seq<Call>, c: Call, id: string, t: Tables)
    requires Correct(prev, id, Stored(t, id)) && Saves(c, id)
    ensures Correct(prev + [c], id, Stored(After(t, c), id))
  {
    var calls := prev + [c];
    var before := Stored(t, id);
    StoredAfterSave(t, c.rec, id);
    assert calls[|prev|] == c;
    if before.None? {
      NoSaveLeft(prev, calls, id);
      assert FirstSave(calls, id, |prev|);
      assert IsSaved(calls, id, |prev|, |prev|, c.rec);
    } else {
      var m: nat, n: nat :| IsSaved(prev, id, m, n, before.value);
      FirstSaveLasts(prev, c, id, m);
      assert IsSaved(calls, id, m, |prev|, c.rec.(row := c.rec.row.(frozen := before.value.row.frozen)));
    }
  }

  lemma CorrectAfterOther(prev: seq<Call>, c: Call, id: string, stored: Option<Record>)
    requires Correct(prev, id, stored) && !Saves(c, id) && !Deletes(c, id)
    ensures Correct(prev + [c], id, stored)
  {
    var calls := prev + [c];
    if stored.None? {
      NoSaveLeft(prev, calls, id);
    } else {
      var m: nat, n: nat :| IsSaved(prev, id, m, n, stored.value);
      FirstSaveLasts(prev, c, id, m);
      assert calls[n] == prev[n] && calls[m] == prev[m];
      assert forall k :: n < k < |prev| ==> calls[k] == prev[k];
      assert IsSaved(calls, id, m, n, stored.value);
    }
  }

  lemma OtherCall(t: Tables, c: Call, id: string)
    requires !Saves(c, id) && !Deletes(c, id)
    ensures Stored(After(t, c), id) == Stored(t, id)
  {
    match c
    case Save(rec, failAt) => StoredAfterSave(t, rec, id);
    case Delete(other, cascade, fails) => StoredAfterDelete(t, other, cascade, id);
  }

  lemma NoSaveLeft(prev: seq<Call>, calls: seq<Call>, id: string)
    requires Absent(prev, id) && prev <= calls
    ensures forall k :: 0 <= k < |prev| && Saves(calls[k], id) ==> exists d :: k < d < |prev| && Deletes(calls[d], id)
  {
    forall k | 0 <= k < |prev| && Saves(calls[k], id) ensures exists d :: k < d < |prev| && Deletes(calls[d], id) {
      assert Saves(prev[k], id);
      var d :| k < d < |prev| && Deletes(prev[d], id);
      assert Deletes(calls[d], id);
    }
  }

  lemma FirstSaveLasts(prev: seq<Call>, c: Call, id: string, m: nat)
    requires FirstSave(prev, id, m) && !Deletes(c, id)
    ensures FirstSave(prev + [c], id, m)
  {
    var calls := prev + [c];
    assert calls[m] == prev[m];
    forall k | 0 <= k < m && Saves(calls[k], id) ensures exists d :: k < d < m && Deletes(calls[d], id) {
      assert calls[k] == prev[k];
      var d :| k < d < m && Deletes(prev[d], id);
      assert calls[d] == prev[d];
    }
  }

  /** After any run of saves and deletes, failed ones included and whether or not deletes
      cascade: if nothing of the id was saved since its deletion, Get finds nothing; otherwise
      it returns the last save, with the type, description and creation time of the first. */
  lemma GetAfterRun(calls: seq<Call>, id: string, answer: Option<Record>)
    requires ReadsBack(Stored(RunCalls(calls), id), answer)
    ensures answer.None? <==> Absent(calls, id)
    ensures answer.Some? ==> exists m: nat, n: nat ::
      FirstSave(calls, id, m) && LastSave(calls, id, n) && AnswerIs(answer.value, calls[m].rec, calls[n].rec)
  {
    StoredIsLastSave(calls, id);
    if answer.Some? {
      var stored := Stored(RunCalls(calls), id).value;
      var m: nat, n: nat :| IsSaved(calls, id, m, n, stored);
      assert FirstSave(calls, id, m) && LastSave(calls, id, n) && AnswerIs(answer.value, calls[m].rec, calls[n].rec);
      assert Saves(calls[n], id);
    }
  }

  ghost predicate AnswerIs(answer: Record, first: Record, last: Record) {
    && answer.id == last.id
    && answer.row.frozen == first.row.frozen && answer.row.current == last.row.current
    && answer.findings == last.findings
    && Arranged(answer.toolCalls, last.toolCalls, ByTurn)
    && Arranged(answer.steps, last.steps, ByNumber)
  }

  /** Tool calls come back by turn and steps by number, the lowest first. */
  lemma ChildrenComeInOrder(saved: Option<Record>, answer: Record)
    requires ReadsBack(saved, Some(answer))
    ensures forall i, j :: 0 <= i < j < |answer.toolCalls| ==> answer.toolCalls[i].turn <= answer.toolCalls[j].turn
    ensures forall i, j :: 0 <= i < j < |answer.steps| ==> answer.steps[i].number <= answer.steps[j].number
  {
    assert forall i, j :: 0 <= i < j < |answer.toolCalls| ==> ByTurn(answer.toolCalls[i], answer.toolCalls[j]);
    assert forall i, j :: 0 <= i < j < |answer.steps| ==> ByNumber(answer.steps[i], answer.steps[j]);
  }

  /** Children saved in strictly increasing order come back exactly as they were. */
  lemma {:induction false} StrictOrderComesBack<T>(saved: seq<T>, answer: seq<T>, key: T -> int, le: (T, T) -> bool)
    requires forall a, b :: le(a, b) <==> key(a) <= key(b)
    requires forall i, j :: 0 <= i < j < |saved| ==> key(saved[i]) < key(saved[j])
    requires Arranged(answer, saved, le)
    ensures answer == saved
  {
    SameSize(answer, saved);
    if saved != [] {
      assert answer[0] in multiset(saved) && saved[0] in multiset(answer);
      assert le(answer[0], saved[0]);
      assert answer[0] == saved[0];
      TailsArranged(saved, answer, le);
      StrictOrderComesBack(saved[1..], answer[1..], key, le);
    }
  }

  lemma TailsArranged<T>(saved: seq<T>, answer: seq<T>, le: (T, T) -> bool)
    requires Arranged(answer, saved, le) && saved != [] && answer != [] && answer[0] == saved[0]
    ensures Arranged(answer[1..], saved[1..], le)
  {
    assert saved == [saved[0]] + saved[1..] && answer == [answer[0]] + answer[1..];
    assert multiset(saved[1..]) == multiset(saved) - multiset{saved[0]};
    assert multiset(answer[1..]) == multiset(answer) - multiset{answer[0]};
  }

  // ------------------------------------------------------------------ orphans

  /** The number of child rows of one id. */
  function Children(t: Tables, id: string): nat {
    |ItemsOf(t.findings, id)| + |ItemsOf(t.toolCalls, id)| + |ItemsOf(t.steps, id)|
  }

  function ChildrenOf(rec: Record): nat {
    |rec.findings| + |rec.toolCalls| + |rec.steps|
  }

  /** Child rows without their investigation. */
  predicate HasOrphans(t: Tables, id: string) {
    id !in t.investigations && Children(t, id) > 0
  }

  ghost predicate NoOrphans(t: Tables) {
    forall id :: !HasOrphans(t, id)
  }

  predicate AllOwned<T>(rows: seq<Owned<T>>, investigations: map<string, Row>) {
    forall i :: 0 <= i < |rows| ==> rows[i].owner in investigations
  }

  lemma {:induction false} OwnerHasItems<T>(rows: seq<Owned<T>>, id: string)
    ensures ItemsOf(rows, id) == [] <==> forall i :: 0 <= i < |rows| ==> rows[i].owner != id
  {
    if rows != [] {
      var front := rows[..|rows| - 1];
      OwnerHasItems(front, id);
      assert forall i :: 0 <= i < |front| ==> front[i] == rows[i];
    }
  }

  /** Without orphans every row of every child table has its investigation. */
  lemma NoOrphansMeans(t: Tables)
    ensures NoOrphans(t) <==> AllOwned(t.findings, t.investigations) && AllOwned(t.toolCalls, t.investigations)
                              && AllOwned(t.steps, t.investigations)
  {
    OwnedMeans(t.findings, t.investigations);
    OwnedMeans(t.toolCalls, t.investigations);
    OwnedMeans(t.steps, t.investigations);
    if NoOrphans(t) {
      forall id | id !in t.investigations
        ensures ItemsOf(t.findings, id) == [] && ItemsOf(t.toolCalls, id) == [] && ItemsOf(t.steps, id) == []
      {
        assert !HasOrphans(t, id);
      }
    }
  }

  lemma OwnedMeans<T>(rows: seq<Owned<T>>, investigations: map<string, Row>)
    ensures AllOwned(rows, investigations) <==> forall id :: id !in investigations ==> ItemsOf(rows, id) == []
  {
    forall id ensures ItemsOf(rows, id) == [] <==> forall i :: 0 <= i < |rows| ==> rows[i].owner != id {
      OwnerHasItems(rows, id);
    }
  }

  lemma ChildrenAfterSave(t: Tables, rec: Record, id: string)
    ensures Children(Saved(t, rec), id) == if id == rec.id then ChildrenOf(rec) else Children(t, id)
  {
    ItemsOfReplaced(t.findings, rec.id, rec.findings, id);
    ItemsOfReplaced(t.toolCalls, rec.id, rec.toolCalls, id);
    ItemsOfReplaced(t.steps, rec.id, rec.steps, id);
  }

  lemma ChildrenAfterDelete(t: Tables, id: string, cascade: bool, other: string)
    ensures Children(Deleted(t, id, cascade), other)
         == if other == id && id in t.investigations && cascade then 0 else Children(t, other)
  {
    ItemsOfWithout(t.findings, id, other);
    ItemsOfWithout(t.toolCalls, id, other);
    ItemsOfWithout(t.steps, id, other);
  }

  /** A delete leaves orphans exactly when it does not cascade and there are children. */
  lemma DeleteLeavesOrphansExactly(t: Tables, id: string, cascade: bool)
    requires NoOrphans(t)
    ensures NoOrphans(Deleted(t, id, cascade)) <==> cascade || Children(t, id) == 0
  {
    var u := Deleted(t, id, cascade);
    forall other ensures HasOrphans(u, other) <==> other == id && !cascade && Children(t, id) > 0 {
      ChildrenAfterDelete(t, id, cascade, other);
      assert !HasOrphans(t, other) && !HasOrphans(t, id);
    }
    assert cascade || Children(t, id) == 0 <==> !HasOrphans(u, id);
  }

  /** Call k removed the row of the id without its children, which the save at n had brought,
      and no save of the id came later. */
  ghost predicate LeftBehind(calls: seq<Call>, id: string, n: nat, k: nat) {
    && n < k < |calls|
    && LastSave(calls[..k], id, n) && ChildrenOf(calls[n].rec) > 0
    && Deletes(calls[k], id) && !calls[k].cascade
    && forall j :: k < j < |calls| ==> !Saves(calls[j], id)
  }

  ghost predicate Orphaned(calls: seq<Call>, id: string) {
    exists n: nat, k: nat :: LeftBehind(calls, id, n, k)
  }

  /** The last call is such a delete. */
  ghost predicate JustLeft(prev: seq<Call>, c: Call, id: string) {
    Deletes(c, id) && !c.cascade && exists n: nat :: LastSave(prev, id, n) && ChildrenOf(prev[n].rec) > 0
  }

  lemma LeftEarlier(prev: seq<Call>, c: Call, id: string, n: nat, k: nat)
    requires k < |prev|
    ensures LeftBehind(prev + [c], id, n, k) <==> LeftBehind(prev, id, n, k) && !Saves(c, id)
  {
    var calls := prev + [c];
    assert calls[..k] == prev[..k] && calls[k] == prev[k] && calls[|prev|] == c;
    assert forall j :: 0 <= j < |prev| ==> calls[j] == prev[j];
  }

  lemma LeftLast(prev: seq<Call>, c: Call, id: string, n: nat)
    ensures LeftBehind(prev + [c], id, n, |prev|) <==>
            LastSave(prev, id, n) && ChildrenOf(prev[n].rec) > 0 && Deletes(c, id) && !c.cascade
  {
    var calls := prev + [c];
    assert calls[..|prev|] == prev && calls[|prev|] == c;
  }

  lemma OrphanedStep(prev: seq<Call>, c: Call, id: string)
    ensures Orphaned(prev + [c], id) <==> (Orphaned(prev, id) && !Saves(c, id)) || JustLeft(prev, c, id)
  {
    var calls := prev + [c];
    if Orphaned(calls, id) {
      var n: nat, k: nat :| LeftBehind(calls, id, n, k);
      if k < |prev| {
        LeftEarlier(prev, c, id, n, k);
      } else {
        LeftLast(prev, c, id, n);
      }
    }
    if Orphaned(prev, id) && !Saves(c, id) {
      var n: nat, k: nat :| LeftBehind(prev, id, n, k);
      LeftEarlier(prev, c, id, n, k);
    }
    if JustLeft(prev, c, id) {
      var n: nat :| LastSave(prev, id, n) && ChildrenOf(prev[n].rec) > 0;
      LeftLast(prev, c, id, n);
    }
  }

  /** A stored row has the children of its last save. */
  lemma StoredChildren(prev: seq<Call>, id: string)
    ensures var t := RunCalls(prev);
      if id in t.investigations
      then exists n: nat :: LastSave(prev, id, n) && Children(t, id) == ChildrenOf(prev[n].rec)
      else forall n: nat :: !LastSave(prev, id, n)
  {
    StoredIsLastSave(prev, id);
    var stored := Stored(RunCalls(prev), id);
    if stored.Some? {
      var m: nat, n: nat :| IsSaved(prev, id, m, n, stored.value);
      assert LastSave(prev, id, n);
    }
  }

  lemma OneLastSave(calls: seq<Call>, id: string, m: nat, n: nat)
    requires LastSave(calls, id, m) && LastSave(calls, id, n)
    ensures m == n
  {
  }

  lemma OrphansAfterDelete(prev: seq<Call>, c: Call, id: string)
    requires Deletes(c, id)
    ensures HasOrphans(After(RunCalls(prev), c), id) <==> HasOrphans(RunCalls(prev), id) || JustLeft(prev, c, id)
  {
    var t := RunCalls(prev);
    ChildrenAfterDelete(t, id, c.cascade, id);
    StoredChildren(prev, id);
    if id in t.investigations {
      var n: nat :| LastSave(prev, id, n) && Children(t, id) == ChildrenOf(prev[n].rec);
      forall k: nat | LastSave(prev, id, k) ensures k == n {
        OneLastSave(prev, id, k, n);
      }
    }
  }

  lemma OrphansAfterOther(t: Tables, c: Call, id: string)
    requires !Saves(c, id) && !Deletes(c, id)
    ensures HasOrphans(After(t, c), id) <==> HasOrphans(t, id)
  {
    match c
    case Save(rec, failAt) => ChildrenAfterSave(t, rec, id);
    case Delete(other, cascade, fails) => ChildrenAfterDelete(t, other, cascade, id);
  }

  /** After any run, an id has orphans exactly when a delete that did not cascade removed it
      with children and it was not saved again. */
  lemma {:induction false} OrphansExactly(calls: seq<Call>, id: string)
    ensures HasOrphans(RunCalls(calls), id) <==> Orphaned(calls, id)
  {
    if calls != [] {
      var prev, c := calls[..|calls| - 1], calls[|calls| - 1];
      assert calls == prev + [c];
      OrphansExactly(prev, id);
      OrphanedStep(prev, c, id);
      if Saves(c, id) {
        assert id in After(RunCalls(prev), c).investigations;
      } else if Deletes(c, id) {
        OrphansAfterDelete(prev, c, id);
      } else {
        OrphansAfterOther(RunCalls(prev), c, id);
      }
    }
  }

  /** When every delete cascades, no child row outlives its investigation. */
  lemma CascadeLeavesNoOrphans(calls: seq<Call>)
    requires forall k :: 0 <= k < |calls| && calls[k].Delete? ==> calls[k].cascade
    ensures NoOrphans(RunCalls(calls))
  {
    forall id ensures !HasOrphans(RunCalls(calls), id) {
      OrphansExactly(calls, id);
    }
  }

  lemma NoOrphansExactly(calls: seq<Call>)
    ensures NoOrphans(RunCalls(calls)) <==> forall id :: !Orphaned(calls, id)
  {
    forall id ensures HasOrphans(RunCalls(calls), id) <==> Orphaned(calls, id) {
      OrphansExactly(calls, id);
    }
    if forall id :: !Orphaned(calls, id) {
      forall id ensures !HasOrphans(RunCalls(calls), id) {
        assert !Orphaned(calls, id);
      }
    }
    if NoOrphans(RunCalls(calls)) {
      forall id ensures !Orphaned(calls, id) {
        assert !HasOrphans(RunCalls(calls), id);
      }
    }
  }

  /** For any record with children: saving it and deleting it without cascade leaves orphans,
      and a later delete that cascades does not remove them. */
  lemma OrphanWithoutCascade(rec: Record)
    requires ChildrenOf(rec) > 0
    ensures HasOrphans(RunCalls(SaveThenDelete(rec)), rec.id) && Stored(RunCalls(SaveThenDelete(rec)), rec.id).None?
    ensures HasOrphans(RunCalls(SaveThenDelete(rec) + [Delete(rec.id, true, false)]), rec.id)
  {
    var calls := SaveThenDelete(rec);
    var more := calls + [Delete(rec.id, true, false)];
    assert calls[..1] == [calls[0]] && more[..1] == [calls[0]];
    assert LastSave(calls[..1], rec.id, 0);
    assert LeftBehind(calls, rec.id, 0, 1) && LeftBehind(more, rec.id, 0, 1);
    OrphansExactly(calls, rec.id);
    OrphansExactly(more, rec.id);
  }

  function SaveThenDelete(rec: Record): seq<Call> {
    [Save(rec, StatementsOf(rec)), Delete(rec.id, false, false)]
  }
}
