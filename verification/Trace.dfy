/** The trace tree read back from the rows, and the tool sequence the evaluation reads from it. */
module Trace {
  import opened Values
  import opened Records

  datatype TracedCall = TracedCall(
    idx: nat,
    tool: string,
    args: Dict,
    output: Option<Dict>,
    status: CallStatus,
    validation: Option<ValidationRow>)

  datatype TracedSubtask = TracedSubtask(idx: int, description: string, status: SubtaskStatus, calls: seq<TracedCall>)

  datatype TraceTree = TraceTree(subtasks: seq<TracedSubtask>, replans: seq<ReplanRow>)

  // ---------------------------------------------------------------------------------------------
  // order_by
  // ---------------------------------------------------------------------------------------------

  /** Inserts an id behind every id whose key is not larger. */
  function InsertId(ids: seq<nat>, id: nat, key: nat -> int): seq<nat> {
    if ids == [] || key(ids[|ids| - 1]) <= key(id) then ids + [id]
    else InsertId(ids[..|ids| - 1], id, key) + [ids[|ids| - 1]]
  }

  /** The ids 0..n-1 ordered by a column, ties in insertion order. */
  function OrderIds(n: nat, key: nat -> int): seq<nat> {
    if n == 0 then [] else InsertId(OrderIds(n - 1, key), n - 1, key)
  }

  function Upto(n: nat): seq<nat> {
    seq(n, i => i)
  }

  lemma InsertAtEnd(ids: seq<nat>, id: nat, key: nat -> int)
    requires ids == [] || key(ids[|ids| - 1]) <= key(id)
    ensures InsertId(ids, id, key) == ids + [id]
  {
  }

  /** A column that never decreases in insertion order is already sorted. */
  lemma {:induction false} OrderedAlready(n: nat, key: nat -> int)
    requires forall i, j :: 0 <= i < j < n ==> key(i) <= key(j)
    ensures OrderIds(n, key) == Upto(n)
  {
    if n > 1 {
      OrderedAlready(n - 1, key);
      InsertAtEnd(Upto(n - 1), n - 1, key);
      assert Upto(n) == Upto(n - 1) + [n - 1];
    }
  }

  /** The order is that of the column, ties in insertion order. */
  ghost predicate Ordered(ids: seq<nat>, key: nat -> int) {
    forall i, j :: 0 <= i < j < |ids| ==> Before(ids[i], ids[j], key)
  }

  ghost predicate Before(a: nat, b: nat, key: nat -> int) {
    key(a) < key(b) || (key(a) == key(b) && a < b)
  }

  lemma {:induction false} InsertKeeps(ids: seq<nat>, id: nat, key: nat -> int)
    ensures |InsertId(ids, id, key)| == |ids| + 1
    ensures forall i: nat :: i in InsertId(ids, id, key) <==> i in ids || i == id
  {
    if ids != [] && key(ids[|ids| - 1]) > key(id) {
      var front := ids[..|ids| - 1];
      InsertKeeps(front, id, key);
      assert ids == front + [ids[|ids| - 1]];
    }
  }

  lemma {:induction false} InsertKeepsOrder(ids: seq<nat>, id: nat, key: nat -> int)
    requires Ordered(ids, key) && forall j :: 0 <= j < |ids| ==> ids[j] < id
    ensures Ordered(InsertId(ids, id, key), key)
  {
    if ids != [] && key(ids[|ids| - 1]) > key(id) {
      var front, last := ids[..|ids| - 1], ids[|ids| - 1];
      InsertKeepsOrder(front, id, key);
      InsertKeeps(front, id, key);
      var ids' := InsertId(front, id, key);
      forall j | 0 <= j < |ids'|
        ensures Before(ids'[j], last, key)
      {
        assert ids'[j] in ids';
        if ids'[j] != id {
          var k :| 0 <= k < |front| && front[k] == ids'[j];
          assert Before(ids[k], ids[|ids| - 1], key);
        }
      }
    } else {
      EarlierComeFirst(ids, id, key);
    }
  }

  lemma {:induction false} EarlierComeFirst(ids: seq<nat>, id: nat, key: nat -> int)
    requires Ordered(ids, key) && forall j :: 0 <= j < |ids| ==> ids[j] < id
    requires ids == [] || key(ids[|ids| - 1]) <= key(id)
    ensures Ordered(ids + [id], key)
  {
    forall j | 0 <= j < |ids|
      ensures key(ids[j]) <= key(id)
    {
      assert j < |ids| - 1 ==> Before(ids[j], ids[|ids| - 1], key);
    }
  }

  lemma {:induction false} OrderIdsList(n: nat, key: nat -> int)
    ensures |OrderIds(n, key)| == n
    ensures forall i: nat :: i in OrderIds(n, key) <==> i < n
  {
    if n > 0 {
      OrderIdsList(n - 1, key);
      InsertKeeps(OrderIds(n - 1, key), n - 1, key);
    }
  }

  lemma {:induction false} IdsAreBelow(n: nat, key: nat -> int)
    ensures |OrderIds(n, key)| == n && forall j :: 0 <= j < n ==> OrderIds(n, key)[j] < n
  {
    OrderIdsList(n, key);
    forall j | 0 <= j < n
      ensures OrderIds(n, key)[j] < n
    {
      assert OrderIds(n, key)[j] in OrderIds(n, key);
    }
  }

  lemma {:induction false} OrderIdsOrder(n: nat, key: nat -> int)
    ensures Ordered(OrderIds(n, key), key)
  {
    if n > 0 {
      var ids := OrderIds(n - 1, key);
      OrderIdsOrder(n - 1, key);
      IdsAreBelow(n - 1, key);
      InsertKeepsOrder(ids, n - 1, key);
    }
  }

  /** Ordering by any column lists each id once, by that column and then by insertion. */
  lemma {:induction false} OrderIdsSorts(n: nat, key: nat -> int)
    ensures Ordered(OrderIds(n, key), key) && |OrderIds(n, key)| == n
    ensures forall i: nat :: i in OrderIds(n, key) <==> i < n
  {
    OrderIdsList(n, key);
    OrderIdsOrder(n, key);
  }

  function SubtaskKey(rows: seq<SubtaskRow>): nat -> int {
    (i: nat) => if i < |rows| then rows[i].idx else 0
  }

  function CallKey(calls: seq<CallRow>): nat -> int {
    (i: nat) => if i < |calls| then calls[i].idx as int else 0
  }

  function ReplanKey(replans: seq<ReplanRow>): nat -> int {
    (i: nat) => if i < |replans| then replans[i].idx else 0
  }

  // ---------------------------------------------------------------------------------------------
  // The trace tree
  // ---------------------------------------------------------------------------------------------

  /** The validation row of a call, if it has one. */
  function ValidationOf(validations: seq<ValidationRow>, call: nat): Option<ValidationRow> {
    if validations == [] then None
    else if validations[|validations| - 1].call == call then Some(validations[|validations| - 1])
    else ValidationOf(validations[..|validations| - 1], call)
  }

  function TracedCallOf(db: Db, k: nat): TracedCall
    requires k < |db.calls|
  {
    var tc := db.calls[k];
    TracedCall(tc.idx, tc.toolName, tc.args, tc.output, tc.status, ValidationOf(db.validations, k))
  }

  /** The calls of subtask r, in the order of `ids`. */
  function CallsOfSubtask(db: Db, r: nat, ids: seq<nat>): seq<TracedCall> {
    if ids == [] then []
    else
      var rest := CallsOfSubtask(db, r, ids[..|ids| - 1]);
      var k := ids[|ids| - 1];
      if k < |db.calls| && db.calls[k].subtask == r then rest + [TracedCallOf(db, k)] else rest
  }

  function TracedSubtaskOf(db: Db, r: nat): TracedSubtask
    requires r < |db.subtasks|
  {
    var st := db.subtasks[r];
    TracedSubtask(st.idx, st.description, st.status,
                  CallsOfSubtask(db, r, OrderIds(|db.calls|, CallKey(db.calls))))
  }

  function TracedSubtasks(db: Db, ids: seq<nat>): seq<TracedSubtask> {
    if ids == [] then []
    else
      var rest := TracedSubtasks(db, ids[..|ids| - 1]);
      var r := ids[|ids| - 1];
      if r < |db.subtasks| then rest + [TracedSubtaskOf(db, r)] else rest
  }

  function TracedReplans(replans: seq<ReplanRow>, ids: seq<nat>): seq<ReplanRow> {
    if ids == [] then []
    else
      var rest := TracedReplans(replans, ids[..|ids| - 1]);
      var k := ids[|ids| - 1];
      if k < |replans| then rest + [replans[k]] else rest
  }

  /** `_trace_for_goal`. */
  function TraceOf(db: Db): TraceTree {
    TraceTree(
      TracedSubtasks(db, OrderIds(|db.subtasks|, SubtaskKey(db.subtasks))),
      TracedReplans(db.replans, OrderIds(|db.replans|, ReplanKey(db.replans))))
  }

  /** The inner loop of `_trace_for_goal`: the calls of one subtask, appended in order. */
  method TraceCalls(db: Db, r: nat) returns (tcs: seq<TracedCall>)
    ensures tcs == CallsOfSubtask(db, r, OrderIds(|db.calls|, CallKey(db.calls)))
  {
    var ids := OrderIds(|db.calls|, CallKey(db.calls));
    tcs := [];
    for i := 0 to |ids|
      invariant tcs == CallsOfSubtask(db, r, ids[..i])
    {
      assert ids[..i + 1][..i] == ids[..i];
      var k := ids[i];
      if k < |db.calls| && db.calls[k].subtask == r {
        tcs := tcs + [TracedCallOf(db, k)];
      }
    }
    assert ids[..|ids|] == ids;
  }

  method TraceForGoal(db: Db) returns (tree: TraceTree)
    ensures tree == TraceOf(db)
  {
    var ids := OrderIds(|db.subtasks|, SubtaskKey(db.subtasks));
    var subtasks := [];
    for i := 0 to |ids|
      invariant subtasks == TracedSubtasks(db, ids[..i])
    {
      assert ids[..i + 1][..i] == ids[..i];
      var r := ids[i];
      if r < |db.subtasks| {
        var st := db.subtasks[r];
        var tcs := TraceCalls(db, r);
        subtasks := subtasks + [TracedSubtask(st.idx, st.description, st.status, tcs)];
      }
    }
    assert ids[..|ids|] == ids;
    tree := TraceTree(subtasks, TracedReplans(db.replans, OrderIds(|db.replans|, ReplanKey(db.replans))));
  }

  // ---------------------------------------------------------------------------------------------
  // The tool sequence
  // ---------------------------------------------------------------------------------------------

  function OkTools(calls: seq<TracedCall>): seq<string> {
    if calls == [] then []
    else
      OkTools(calls[..|calls| - 1]) +
      if calls[|calls| - 1].status == CallOk then [calls[|calls| - 1].tool] else []
  }

  function ToolSequenceOf(subtasks: seq<TracedSubtask>): seq<string> {
    if subtasks == [] then []
    else ToolSequenceOf(subtasks[..|subtasks| - 1]) + OkTools(subtasks[|subtasks| - 1].calls)
  }

  /** `_tool_sequence`. */
  method ToolSequence(trace: TraceTree) returns (out: seq<string>)
    ensures out == ToolSequenceOf(trace.subtasks)
  {
    out := [];
    for i := 0 to |trace.subtasks|
      invariant out == ToolSequenceOf(trace.subtasks[..i])
    {
      var st := trace.subtasks[i];
      ghost var before := out;
      for j := 0 to |st.calls|
        invariant out == before + OkTools(st.calls[..j])
      {
        assert st.calls[..j + 1][..j] == st.calls[..j];
        if st.calls[j].status == CallOk {
          out := out + [st.calls[j].tool];
        }
      }
      assert st.calls[..|st.calls|] == st.calls;
      assert trace.subtasks[..i + 1][..i] == trace.subtasks[..i];
    }
    assert trace.subtasks[..|trace.subtasks|] == trace.subtasks;
  }

  /** The tools of the rows whose call ended ok, in the order the rows were written. */
  function OkRows(calls: seq<CallRow>): seq<string> {
    if calls == [] then []
    else
      OkRows(calls[..|calls| - 1]) +
      if calls[|calls| - 1].status == CallOk then [calls[|calls| - 1].toolName] else []
  }

  /** Rows numbered 0, 1, 2, ...; each subtask called at most once, in that order. */
  ghost predicate Chronological(db: Db) {
    && (forall i :: 0 <= i < |db.subtasks| ==> db.subtasks[i].idx == i)
    && (forall k :: 0 <= k < |db.calls| ==> db.calls[k].idx == 0 && db.calls[k].subtask < |db.subtasks|)
    && (forall j, k :: 0 <= j < k < |db.calls| ==> db.calls[j].subtask < db.calls[k].subtask)
  }

  /** Subtask r's calls, when ids are taken in insertion order. */
  lemma {:induction false} CallsInOrder(db: Db, r: nat, n: nat, k: nat)
    requires Chronological(db) && n <= |db.calls|
    requires k <= n
    requires forall j :: 0 <= j < k ==> db.calls[j].subtask < r
    requires forall j :: k <= j < n ==> db.calls[j].subtask >= r
    ensures CallsOfSubtask(db, r, Upto(n)) ==
      if k < n && db.calls[k].subtask == r then [TracedCallOf(db, k)] else []
  {
    if n > 0 {
      assert Upto(n)[..n - 1] == Upto(n - 1);
      if k == n {
        CallsInOrder(db, r, n - 1, n - 1);
      } else {
        CallsInOrder(db, r, n - 1, k);
      }
    }
  }

  lemma SubtasksExtend(db: Db, n: nat)
    requires n < |db.subtasks|
    ensures TracedSubtasks(db, Upto(n + 1)) == TracedSubtasks(db, Upto(n)) + [TracedSubtaskOf(db, n)]
  {
    assert Upto(n + 1)[..n] == Upto(n);
  }

  lemma OneSubtask(db: Db, r: nat, m: nat)
    requires Chronological(db) && r < |db.subtasks|
    requires m <= |db.calls|
    requires forall j :: 0 <= j < m ==> db.calls[j].subtask < r
    requires forall j :: m <= j < |db.calls| ==> db.calls[j].subtask >= r
    ensures TracedSubtaskOf(db, r).calls ==
      if m < |db.calls| && db.calls[m].subtask == r then [TracedCallOf(db, m)] else []
  {
    OrderedAlready(|db.calls|, CallKey(db.calls));
    CallsInOrder(db, r, |db.calls|, m);
  }

  /** The calls of all subtasks, one after the other. */
  function Flat(subtasks: seq<TracedSubtask>): seq<TracedCall> {
    if subtasks == [] then [] else Flat(subtasks[..|subtasks| - 1]) + subtasks[|subtasks| - 1].calls
  }

  /** The first k call rows, in the order they were written, each with its validation. */
  function CallsSoFar(db: Db, k: nat): (calls: seq<TracedCall>)
    requires k <= |db.calls|
    ensures |calls| == k
    ensures forall i :: 0 <= i < k ==> calls[i] == TracedCallOf(db, i)
  {
    seq(k, (i: nat) requires i < k <= |db.calls| => TracedCallOf(db, i))
  }

  /** The calls of the first n subtasks are the first k. */
  ghost predicate SplitAt(calls: seq<CallRow>, n: nat, k: nat) {
    && k <= |calls|
    && (forall j :: 0 <= j < k ==> calls[j].subtask < n)
    && (forall j :: k <= j < |calls| ==> calls[j].subtask >= n)
  }

  /** Subtask n adds its call row, if it has one. */
  lemma OneMoreSubtask(db: Db, n: nat, m: nat)
    requires Chronological(db) && n < |db.subtasks| && SplitAt(db.calls, n, m)
    ensures Flat(TracedSubtasks(db, Upto(n + 1))) == Flat(TracedSubtasks(db, Upto(n))) +
      if m < |db.calls| && db.calls[m].subtask == n then [TracedCallOf(db, m)] else []
  {
    OneSubtask(db, n, m);
    SubtasksExtend(db, n);
    var before := TracedSubtasks(db, Upto(n));
    assert (before + [TracedSubtaskOf(db, n)])[..|before|] == before;
  }

  /** Moving back by one subtask moves the split back by its call row, if it has one. */
  lemma SplitBack(db: Db, n: nat, k: nat) returns (m: nat)
    requires Chronological(db) && n < |db.subtasks| && SplitAt(db.calls, n + 1, k)
    ensures m <= k && SplitAt(db.calls, n, m)
    ensures CallsSoFar(db, k) == CallsSoFar(db, m) +
      if m < |db.calls| && db.calls[m].subtask == n then [TracedCallOf(db, m)] else []
  {
    m := if k > 0 && db.calls[k - 1].subtask == n then k - 1 else k;
  }

  lemma {:induction false} CallsStayInOrder(db: Db, n: nat, k: nat)
    requires Chronological(db) && n <= |db.subtasks| && SplitAt(db.calls, n, k)
    ensures Flat(TracedSubtasks(db, Upto(n))) == CallsSoFar(db, k)
  {
    if n == 0 {
      assert k > 0 ==> db.calls[0].subtask < n;
    } else {
      var m := SplitBack(db, n - 1, k);
      CallsStayInOrder(db, n - 1, m);
      OneMoreSubtask(db, n - 1, m);
    }
  }

  /** On chronological rows the trace lists every tool call, ok or not, in the order the rows were
      written, with tool, arguments, output, status and validation. */
  lemma {:induction false} TraceIsChronological(db: Db)
    requires Chronological(db)
    ensures Flat(TraceOf(db).subtasks) == CallsSoFar(db, |db.calls|)
  {
    OrderedAlready(|db.subtasks|, SubtaskKey(db.subtasks));
    CallsStayInOrder(db, |db.subtasks|, |db.calls|);
  }

  /** A traced call repeats its row, with the row's validation. */
  ghost predicate RepeatsCall(db: Db, k: nat, tc: TracedCall)
    requires k < |db.calls|
  {
    && tc.idx == db.calls[k].idx && tc.tool == db.calls[k].toolName && tc.args == db.calls[k].args
    && tc.output == db.calls[k].output && tc.status == db.calls[k].status
    && (tc.validation.Some? ==> tc.validation.value in db.validations && tc.validation.value.call == k)
    && (tc.validation.None? ==> forall v :: v in db.validations ==> v.call != k)
  }

  lemma {:induction false} ValidationIsFound(validations: seq<ValidationRow>, k: nat)
    ensures var v := ValidationOf(validations, k);
      && (v.Some? ==> v.value in validations && v.value.call == k)
      && (v.None? ==> forall row :: row in validations ==> row.call != k)
  {
    if validations != [] {
      ValidationIsFound(validations[..|validations| - 1], k);
    }
  }

  /** The places among the first n ids at which a call of subtask r stands. */
  function CallPlaces(db: Db, r: nat, ids: seq<nat>, n: nat): set<nat> {
    set j: nat | j < n && j < |ids| && ids[j] < |db.calls| && db.calls[ids[j]].subtask == r
  }

  lemma CallPlacesBelow(db: Db, r: nat, ids: seq<nat>, n: nat, i: nat)
    requires i <= n <= |ids|
    ensures CallPlaces(db, r, ids[..n], i) == CallPlaces(db, r, ids, i)
  {
  }

  lemma {:induction false} CallsOfSubtaskSize(db: Db, r: nat, ids: seq<nat>)
    ensures |CallsOfSubtask(db, r, ids)| == |CallPlaces(db, r, ids, |ids|)|
  {
    if ids == [] {
      assert CallPlaces(db, r, ids, 0) == {};
    } else {
      var n := |ids| - 1;
      CallsOfSubtaskSize(db, r, ids[..n]);
      CallPlacesBelow(db, r, ids, n, n);
      assert CallPlaces(db, r, ids, n + 1) ==
        if ids[n] < |db.calls| && db.calls[ids[n]].subtask == r
        then CallPlaces(db, r, ids, n) + {n} else CallPlaces(db, r, ids, n);
    }
  }

  /** Below a subtask stand exactly its calls, in the order of the ids. */
  lemma {:induction false} CallsOfSubtaskAre(db: Db, r: nat, ids: seq<nat>, j: nat)
    requires j < |ids| && ids[j] < |db.calls| && db.calls[ids[j]].subtask == r
    ensures |CallsOfSubtask(db, r, ids)| == |CallPlaces(db, r, ids, |ids|)|
    ensures |CallPlaces(db, r, ids, j)| < |CallsOfSubtask(db, r, ids)|
    ensures RepeatsCall(db, ids[j], CallsOfSubtask(db, r, ids)[|CallPlaces(db, r, ids, j)|])
  {
    var n := |ids| - 1;
    CallsOfSubtaskSize(db, r, ids);
    CallsOfSubtaskSize(db, r, ids[..n]);
    CallPlacesBelow(db, r, ids, n, j);
    if j < n {
      CallsOfSubtaskAre(db, r, ids[..n], j);
    } else {
      ValidationIsFound(db.validations, ids[j]);
    }
  }

  lemma {:induction false} SubtasksByIds(db: Db, ids: seq<nat>)
    requires forall j :: 0 <= j < |ids| ==> ids[j] < |db.subtasks|
    ensures |TracedSubtasks(db, ids)| == |ids|
    ensures forall j :: 0 <= j < |ids| ==> TracedSubtasks(db, ids)[j] == TracedSubtaskOf(db, ids[j])
  {
    if ids != [] {
      SubtasksByIds(db, ids[..|ids| - 1]);
    }
  }

  lemma {:induction false} ReplansByIds(replans: seq<ReplanRow>, ids: seq<nat>)
    requires forall j :: 0 <= j < |ids| ==> ids[j] < |replans|
    ensures |TracedReplans(replans, ids)| == |ids|
    ensures forall j :: 0 <= j < |ids| ==> TracedReplans(replans, ids)[j] == replans[ids[j]]
  {
    if ids != [] {
      ReplansByIds(replans, ids[..|ids| - 1]);
    }
  }

  /** A node repeats its subtask row and has exactly the subtask's calls below it, in the order of the ids. */
  ghost predicate NodeIs(db: Db, ids: seq<nat>, r: nat, st: TracedSubtask)
    requires r < |db.subtasks|
  {
    && st.idx == db.subtasks[r].idx && st.description == db.subtasks[r].description
    && st.status == db.subtasks[r].status && |st.calls| == |CallPlaces(db, r, ids, |ids|)|
    && forall j: nat :: j < |ids| && ids[j] < |db.calls| && db.calls[ids[j]].subtask == r ==>
         && |CallPlaces(db, r, ids, j)| < |st.calls|
         && RepeatsCall(db, ids[j], st.calls[|CallPlaces(db, r, ids, j)|])
  }

  lemma {:induction false} OrderedNode(db: Db, ids: seq<nat>, r: nat)
    requires r < |db.subtasks| && ids == OrderIds(|db.calls|, CallKey(db.calls))
    ensures NodeIs(db, ids, r, TracedSubtaskOf(db, r))
  {
    CallsOfSubtaskSize(db, r, ids);
    forall j: nat | j < |ids| && ids[j] < |db.calls| && db.calls[ids[j]].subtask == r
      ensures |CallPlaces(db, r, ids, j)| < |CallsOfSubtask(db, r, ids)|
      ensures RepeatsCall(db, ids[j], CallsOfSubtask(db, r, ids)[|CallPlaces(db, r, ids, j)|])
    {
      CallsOfSubtaskAre(db, r, ids, j);
    }
  }

  /** Whatever rows there are: the tree has one node per subtask row and one event per replan row, each
      ordered by its column; node j repeats its row; and below it stand exactly its calls, also when there
      are several, ordered by theirs. */
  lemma {:induction false} TraceIsOrdered(db: Db) returns (ids: seq<nat>, events: seq<nat>, calls: seq<nat>)
    ensures Ordered(ids, SubtaskKey(db.subtasks)) && |ids| == |db.subtasks| == |TraceOf(db).subtasks|
    ensures Ordered(events, ReplanKey(db.replans)) && |events| == |db.replans| == |TraceOf(db).replans|
    ensures Ordered(calls, CallKey(db.calls)) && |calls| == |db.calls|
    ensures forall i: nat ::
      && (i in ids <==> i < |db.subtasks|) && (i in events <==> i < |db.replans|) && (i in calls <==> i < |db.calls|)
    ensures forall j :: 0 <= j < |events| ==>
      events[j] < |db.replans| && TraceOf(db).replans[j] == db.replans[events[j]]
    ensures forall j :: 0 <= j < |ids| ==> ids[j] < |db.subtasks| && NodeIs(db, calls, ids[j], TraceOf(db).subtasks[j])
  {
    ids := OrderIds(|db.subtasks|, SubtaskKey(db.subtasks));
    events := OrderIds(|db.replans|, ReplanKey(db.replans));
    calls := OrderIds(|db.calls|, CallKey(db.calls));
    OrderIdsSorts(|db.subtasks|, SubtaskKey(db.subtasks));
    OrderIdsSorts(|db.replans|, ReplanKey(db.replans));
    OrderIdsSorts(|db.calls|, CallKey(db.calls));
    NodesAreOrdered(db, ids, calls);
    EventsAreOrdered(db, events);
  }

  lemma {:induction false} EventsAreOrdered(db: Db, events: seq<nat>)
    requires events == OrderIds(|db.replans|, ReplanKey(db.replans))
    ensures |events| == |db.replans| == |TraceOf(db).replans|
    ensures forall j :: 0 <= j < |events| ==>
      events[j] < |db.replans| && TraceOf(db).replans[j] == db.replans[events[j]]
  {
    IdsAreBelow(|db.replans|, ReplanKey(db.replans));
    ReplansByIds(db.replans, events);
  }

  lemma {:induction false} NodesAreOrdered(db: Db, ids: seq<nat>, calls: seq<nat>)
    requires ids == OrderIds(|db.subtasks|, SubtaskKey(db.subtasks))
    requires calls == OrderIds(|db.calls|, CallKey(db.calls))
    ensures |ids| == |db.subtasks| == |TraceOf(db).subtasks|
    ensures forall j :: 0 <= j < |ids| ==> ids[j] < |db.subtasks| && NodeIs(db, calls, ids[j], TraceOf(db).subtasks[j])
  {
    IdsAreBelow(|db.subtasks|, SubtaskKey(db.subtasks));
    SubtasksByIds(db, ids);
    forall j | 0 <= j < |ids|
      ensures NodeIs(db, calls, ids[j], TraceOf(db).subtasks[j])
    {
      OrderedNode(db, calls, ids[j]);
    }
  }

  /** A traced subtask repeats its row; below it is the subtask's call, if it has one. */
  ghost predicate RepeatsSubtask(db: Db, r: nat, st: TracedSubtask)
    requires r < |db.subtasks|
  {
    && st.idx == db.subtasks[r].idx && st.description == db.subtasks[r].description
    && st.status == db.subtasks[r].status && |st.calls| <= 1
    && (forall k: nat :: k < |db.calls| && db.calls[k].subtask == r ==>
          st.calls != [] && RepeatsCall(db, k, st.calls[0]))
    && (st.calls != [] ==> exists k: nat :: k < |db.calls| && db.calls[k].subtask == r)
  }

  lemma {:induction false} SubtaskIsRepeated(db: Db, r: nat)
    requires Chronological(db) && r < |db.subtasks|
    ensures RepeatsSubtask(db, r, TracedSubtaskOf(db, r))
  {
    var m := FirstCallFrom(db, r, |db.calls|);
    OneSubtask(db, r, m);
    if m < |db.calls| && db.calls[m].subtask == r {
      CallIsRepeated(db, m);
      forall k: nat | k < |db.calls| && db.calls[k].subtask == r
        ensures k == m
      {
        OneCallEach(db, k, m);
      }
    } else {
      forall k: nat | k < |db.calls|
        ensures db.calls[k].subtask != r
      {
        NoCallOf(db, r, m, k);
      }
    }
  }

  lemma CallIsRepeated(db: Db, k: nat)
    requires k < |db.calls|
    ensures RepeatsCall(db, k, TracedCallOf(db, k))
  {
    ValidationIsFound(db.validations, k);
  }

  lemma OneCallEach(db: Db, j: nat, k: nat)
    requires Chronological(db) && j < |db.calls| && k < |db.calls| && db.calls[j].subtask == db.calls[k].subtask
    ensures j == k
  {
  }

  lemma NoCallOf(db: Db, r: nat, m: nat, k: nat)
    requires Chronological(db) && m <= |db.calls| && k < |db.calls|
    requires forall j :: 0 <= j < m ==> db.calls[j].subtask < r
    requires m < |db.calls| ==> db.calls[m].subtask > r
    ensures db.calls[k].subtask != r
  {
  }

  /** Where the calls of the subtasks from r on begin. */
  lemma {:induction false} FirstCallFrom(db: Db, r: nat, n: nat) returns (m: nat)
    requires Chronological(db) && n <= |db.calls|
    requires forall j :: n <= j < |db.calls| ==> db.calls[j].subtask >= r
    ensures m <= |db.calls|
    ensures forall j :: 0 <= j < m ==> db.calls[j].subtask < r
    ensures forall j :: m <= j < |db.calls| ==> db.calls[j].subtask >= r
  {
    if n == 0 || db.calls[n - 1].subtask < r {
      m := n;
    } else {
      m := FirstCallFrom(db, r, n - 1);
    }
  }

  /** On chronological rows the tree has one node per subtask row, in order, with the row's fields and
      its call; and the replan events in the order they were written. */
  lemma {:induction false} TraceRepeatsRows(db: Db)
    requires Chronological(db) && forall j, k :: 0 <= j < k < |db.replans| ==> db.replans[j].idx <= db.replans[k].idx
    ensures TraceOf(db).replans == db.replans && |TraceOf(db).subtasks| == |db.subtasks|
    ensures forall r: nat :: r < |db.subtasks| ==> RepeatsSubtask(db, r, TraceOf(db).subtasks[r])
  {
    ReplansRepeated(db);
    SubtasksRepeated(db);
    forall r: nat | r < |db.subtasks|
      ensures RepeatsSubtask(db, r, TraceOf(db).subtasks[r])
    {
      SubtaskIsRepeated(db, r);
    }
  }

  lemma {:induction false} ReplansRepeated(db: Db)
    requires forall j, k :: 0 <= j < k < |db.replans| ==> db.replans[j].idx <= db.replans[k].idx
    ensures TraceOf(db).replans == db.replans
  {
    OrderedAlready(|db.replans|, ReplanKey(db.replans));
    ReplansByIds(db.replans, Upto(|db.replans|));
  }

  lemma {:induction false} SubtasksRepeated(db: Db)
    requires forall i :: 0 <= i < |db.subtasks| ==> db.subtasks[i].idx == i
    ensures |TraceOf(db).subtasks| == |db.subtasks|
    ensures forall r: nat :: r < |db.subtasks| ==> TraceOf(db).subtasks[r] == TracedSubtaskOf(db, r)
  {
    OrderedAlready(|db.subtasks|, SubtaskKey(db.subtasks));
    SubtasksByIds(db, Upto(|db.subtasks|));
  }

  lemma {:induction false} OkToolsAppend(a: seq<TracedCall>, b: seq<TracedCall>)
    ensures OkTools(a + b) == OkTools(a) + OkTools(b)
  {
    if b == [] {
      assert a + b == a;
    } else {
      var all := a + b;
      OkToolsAppend(a, b[..|b| - 1]);
      assert all[..|all| - 1] == a + b[..|b| - 1] && all[|all| - 1] == b[|b| - 1];
    }
  }

  /** The tool sequence does not care how calls are grouped into subtasks. */
  lemma {:induction false} ToolSequenceOfFlat(subtasks: seq<TracedSubtask>)
    ensures ToolSequenceOf(subtasks) == OkTools(Flat(subtasks))
  {
    if subtasks != [] {
      ToolSequenceOfFlat(subtasks[..|subtasks| - 1]);
      OkToolsAppend(Flat(subtasks[..|subtasks| - 1]), subtasks[|subtasks| - 1].calls);
    }
  }

  lemma {:induction false} OkToolsOfRows(db: Db, k: nat)
    requires k <= |db.calls|
    ensures OkTools(CallsSoFar(db, k)) == OkRows(db.calls[..k])
  {
    if k > 0 {
      OkToolsOfRows(db, k - 1);
      assert CallsSoFar(db, k)[..k - 1] == CallsSoFar(db, k - 1);
      assert db.calls[..k][..k - 1] == db.calls[..k - 1];
    }
  }

  /** So the tool sequence read from the trace is that of the rows. */
  lemma {:induction false} ToolSequenceOfRows(db: Db)
    requires Chronological(db)
    ensures ToolSequenceOf(TraceOf(db).subtasks) == OkRows(db.calls)
  {
    TraceIsChronological(db);
    ToolSequenceOfFlat(TraceOf(db).subtasks);
    OkToolsOfRows(db, |db.calls|);
    assert db.calls[..|db.calls|] == db.calls;
  }
}
