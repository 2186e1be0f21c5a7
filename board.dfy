/** The Kanban board of the planner as values: three fixed columns holding ordered task
    lists, the derived completion percentage, and the pure board updates the planner's
    handlers commit (the move, the creation append, the comment and attachment maps). */
module Board {
  import opened Progress

  datatype Option<T> = None | Some(value: T)

  /** 'Baja' | 'Media' | 'Alta'. */
  datatype Priority = Baja | Media | Alta

  /** 'todo' | 'doing' | 'done'. */
  datatype ColumnId = Todo | Doing | Done

  datatype Task = Task(id: string, content: string, priority: Priority,
                       comments: seq<string>, attachments: seq<string>)

  datatype Column = Column(id: ColumnId, title: string, tasks: seq<Task>)

  /** Where a column sits in the board's fixed order todo, doing, done. */
  function Position(c: ColumnId): (k: nat)
    ensures k < 3
  {
    match c
    case Todo => 0
    case Doing => 1
    case Done => 2
  }

  /** The only board shape the planner builds: the three columns, in order. */
  predicate Shaped(cols: seq<Column>) {
    |cols| == 3 && cols[0].id == Todo && cols[1].id == Doing && cols[2].id == Done
  }

  /** The board the planner starts with: one task in the backlog. */
  function InitialColumns(): (cols: seq<Column>)
    ensures Shaped(cols)
  {
    [ Column(Todo, "Backlog Proyecto",
             [Task("1", "Optimización de carga LCP", Alta, [], [])]),
      Column(Doing, "En Desarrollo", []),
      Column(Done, "Finalizado", []) ]
  }

  // ---------------------------------------------------------------------------------
  // Searching

  /** Array.prototype.findIndex: the first position satisfying `p`, or -1. */
  function FindIndex<T>(s: seq<T>, p: T -> bool): (k: int)
    ensures -1 <= k < |s|
    ensures k == -1 <==> forall i :: 0 <= i < |s| ==> !p(s[i])
    ensures 0 <= k ==> p(s[k]) && forall i :: 0 <= i < k ==> !p(s[i])
  {
    if |s| == 0 then -1
    else if p(s[0]) then 0
    else
      var k := FindIndex(s[1..], p);
      assert forall i :: 1 <= i < |s| ==> s[i] == s[1..][i - 1];
      if k == -1 then -1 else k + 1
  }

  /** Array.prototype.find: the first element satisfying `p`, if any. */
  function Find<T>(s: seq<T>, p: T -> bool): (r: Option<T>)
    ensures r.None? <==> forall i :: 0 <= i < |s| ==> !p(s[i])
    ensures r.Some? ==> r.value in s && p(r.value)
  {
    var k := FindIndex(s, p);
    if k < 0 then None else Some(s[k])
  }

  /** What `find` returns is the first match: no element before it satisfies `p`. */
  lemma FindFirst<T>(s: seq<T>, p: T -> bool)
    ensures var r := Find(s, p);
      r.Some? ==> exists k :: 0 <= k < |s| && r.value == s[k] && forall i :: 0 <= i < k ==> !p(s[i])
  {
    var k := FindIndex(s, p);
    if k >= 0 {
      assert Find(s, p).value == s[k];
    }
  }

  function ColumnIs(c: ColumnId): Column -> bool {
    (col: Column) => col.id == c
  }

  function HasId(id: string): Task -> bool {
    (t: Task) => t.id == id
  }

  /** On a shaped board, `findIndex(c => c.id === id)` finds the column at its fixed position. */
  lemma ColumnFound(cols: seq<Column>, c: ColumnId)
    requires Shaped(cols)
    ensures FindIndex(cols, ColumnIs(c)) == Position(c)
  {
    assert ColumnIs(c)(cols[Position(c)]);
  }

  /** Some task of `ts` carries `id`. */
  predicate TaskIn(ts: seq<Task>, id: string) {
    exists i :: 0 <= i < |ts| && ts[i].id == id
  }

  // ---------------------------------------------------------------------------------
  // All tasks of the board

  /** The tasks of all columns, column after column. */
  function AllTasks(cols: seq<Column>): seq<Task> {
    if |cols| == 0 then [] else cols[0].tasks + AllTasks(cols[1..])
  }

  lemma AllTasksOfBoard(cols: seq<Column>)
    requires |cols| == 3
    ensures AllTasks(cols) == cols[0].tasks + cols[1].tasks + cols[2].tasks
  {
    var t := cols[1..];
    var u := t[1..];
    assert u[1..] == [];
    assert AllTasks(u) == cols[2].tasks + AllTasks(u[1..]);
    assert AllTasks(t) == cols[1].tasks + AllTasks(u);
  }

  /** Where column `c` starts inside AllTasks of a three-column board. */
  function Offset(cols: seq<Column>, c: nat): nat
    requires |cols| == 3 && c < 3
  {
    if c == 0 then 0 else if c == 1 then |cols[0].tasks| else |cols[0].tasks| + |cols[1].tasks|
  }

  lemma AtOffset(cols: seq<Column>, c: nat, j: nat)
    requires |cols| == 3 && c < 3 && j < |cols[c].tasks|
    ensures Offset(cols, c) + j < |AllTasks(cols)|
    ensures AllTasks(cols)[Offset(cols, c) + j] == cols[c].tasks[j]
  {
    AllTasksOfBoard(cols);
  }

  /** No two tasks on the board share an id. */
  predicate UniqueIds(ts: seq<Task>) {
    forall i, j :: 0 <= i < j < |ts| ==> ts[i].id != ts[j].id
  }

  /** Every task id lives in exactly one column, at exactly one position: two positions of a
      board with unique ids that hold the same id are the same position. */
  lemma SamePosition(cols: seq<Column>, c1: nat, j1: nat, c2: nat, j2: nat)
    requires |cols| == 3 && UniqueIds(AllTasks(cols))
    requires c1 < 3 && j1 < |cols[c1].tasks| && c2 < 3 && j2 < |cols[c2].tasks|
    requires cols[c1].tasks[j1].id == cols[c2].tasks[j2].id
    ensures c1 == c2 && j1 == j2
  {
    AtOffset(cols, c1, j1);
    AtOffset(cols, c2, j2);
    var g1, g2 := Offset(cols, c1) + j1, Offset(cols, c2) + j2;
    assert g1 == g2;
  }

  /** The board's version of the task with this id (the first match, as `find` returns). */
  function Lookup(cols: seq<Column>, id: string): Option<Task> {
    Find(AllTasks(cols), HasId(id))
  }

  /** With unique ids, looking an id up finds exactly the task on the board that carries it. */
  lemma LookupFinds(ts: seq<Task>, id: string, t: Task)
    requires UniqueIds(ts)
    ensures Find(ts, HasId(id)) == Some(t) <==> t in ts && t.id == id
  {
    if t in ts && t.id == id {
      var i :| 0 <= i < |ts| && ts[i] == t;
      var k := FindIndex(ts, HasId(id));
      assert HasId(id)(ts[i]);
      assert k != -1;
      assert ts[k].id == id;
    }
  }

  lemma LookupIsOnBoard(cols: seq<Column>, id: string)
    ensures Lookup(cols, id).Some? ==> Lookup(cols, id).value in AllTasks(cols) && Lookup(cols, id).value.id == id
    ensures Lookup(cols, id).None? <==> forall t :: t in AllTasks(cols) ==> t.id != id
  {
    var all := AllTasks(cols);
    if Lookup(cols, id).None? {
      forall t | t in all ensures t.id != id {
        var i :| 0 <= i < |all| && all[i] == t;
        assert !HasId(id)(all[i]);
      }
    }
  }

  // ---------------------------------------------------------------------------------
  // Permutations keep ids unique

  lemma TwiceCounted(s: seq<Task>, i: nat, j: nat)
    requires i < j < |s| && s[i] == s[j]
    ensures multiset(s)[s[i]] >= 2
  {
    assert s == s[..i] + [s[i]] + s[i + 1..j] + [s[j]] + s[j + 1..];
  }

  lemma SecondOccurrence(s: seq<Task>, x: Task)
    requires multiset(s)[x] >= 2
    ensures exists i, j :: 0 <= i < j < |s| && s[i] == x && s[j] == x
  {
    assert x in s;
    var i :| 0 <= i < |s| && s[i] == x;
    assert s == s[..i] + [x] + s[i + 1..];
    assert multiset(s) == multiset(s[..i]) + multiset{x} + multiset(s[i + 1..]);
    if x in s[..i] {
      var j :| 0 <= j < i && s[..i][j] == x;
      assert s[j] == x;
    } else {
      assert x in s[i + 1..];
      var j :| 0 <= j < |s| - i - 1 && s[i + 1..][j] == x;
      assert s[i + 1 + j] == x;
    }
  }

  /** Reordering the tasks of the board (same multiset) cannot make two of them share an id. */
  lemma PermutationKeepsUnique(a: seq<Task>, b: seq<Task>)
    requires multiset(a) == multiset(b) && UniqueIds(a)
    ensures UniqueIds(b)
  {
    forall i, j | 0 <= i < j < |b| ensures b[i].id != b[j].id {
      if b[i] == b[j] {
        TwiceCounted(b, i, j);
        SecondOccurrence(a, b[i]);
      } else {
        assert b[i] in multiset(a) && b[j] in multiset(a);
        var i' :| 0 <= i' < |a| && a[i'] == b[i];
        var j' :| 0 <= j' < |a| && a[j'] == b[j];
        assert i' != j';
      }
    }
  }

  /** Two lists holding the same tasks, both with unique ids, find the same task for every id. */
  lemma SameTasksSameFind(a: seq<Task>, b: seq<Task>, id: string)
    requires multiset(a) == multiset(b) && UniqueIds(a) && UniqueIds(b)
    ensures Find(a, HasId(id)) == Find(b, HasId(id))
  {
    if Find(a, HasId(id)).Some? {
      var t := Find(a, HasId(id)).value;
      assert t in multiset(b);
      LookupFinds(b, id, t);
    } else {
      forall i | 0 <= i < |b| ensures !HasId(id)(b[i]) {
        assert b[i] in multiset(a);
      }
    }
  }

  /** Two boards holding the same tasks, both with unique ids, answer every lookup alike. */
  lemma SameTasksSameLookup(a: seq<Column>, b: seq<Column>, id: string)
    requires multiset(AllTasks(a)) == multiset(AllTasks(b))
    requires UniqueIds(AllTasks(a)) && UniqueIds(AllTasks(b))
    ensures Lookup(a, id) == Lookup(b, id)
  {
    SameTasksSameFind(AllTasks(a), AllTasks(b), id);
  }

  // ---------------------------------------------------------------------------------
  // Completion percentage

  /** `columns.reduce((acc, col) => acc + col.tasks.length, 0)`. */
  function TotalTasks(cols: seq<Column>): (n: nat)
    ensures n == |AllTasks(cols)|
  {
    if |cols| == 0 then 0 else |cols[0].tasks| + TotalTasks(cols[1..])
  }

  lemma TotalOfBoard(cols: seq<Column>)
    requires |cols| == 3
    ensures TotalTasks(cols) == |cols[0].tasks| + |cols[1].tasks| + |cols[2].tasks|
  {
    AllTasksOfBoard(cols);
  }

  lemma {:induction false} ColumnWithinTotal(cols: seq<Column>, k: nat)
    requires k < |cols|
    ensures |cols[k].tasks| <= TotalTasks(cols)
  {
    if k > 0 {
      ColumnWithinTotal(cols[1..], k - 1);
    }
  }

  /** `columns.find(c => c.id === 'done')?.tasks.length || 0`. */
  function DoneCount(cols: seq<Column>): (d: nat)
    ensures d <= TotalTasks(cols)
    ensures Shaped(cols) ==> d == |cols[2].tasks|
  {
    match Find(cols, ColumnIs(Done))
    case None => 0
    case Some(c) =>
      var k := FindIndex(cols, ColumnIs(Done));
      ColumnWithinTotal(cols, k);
      |c.tasks|
  }

  /** `Math.round(num / den)` for a non-negative ratio, in exact arithmetic: the integer
      nearest to the ratio, a half rounded up. */
  function RoundRatio(num: nat, den: nat): (r: nat)
    requires den > 0
    ensures 2 * den * r <= 2 * num + den < 2 * den * (r + 1)
  {
    (2 * num + den) / (2 * den)
  }

  lemma RoundRatioAtMostHundred(d: nat, t: nat)
    requires 0 < t && d <= t
    ensures RoundRatio(100 * d, t) <= 100
  {
    var r := RoundRatio(100 * d, t);
    MulMonotone(2 * t, 101, r);
  }

  /** The global status shown on the banner: done tasks over all tasks, as a rounded
      percentage, and 0 for an empty board. */
  function CompletionPercent(cols: seq<Column>): (r: nat)
    ensures r <= 100
    ensures TotalTasks(cols) == 0 ==> r == 0
    ensures TotalTasks(cols) > 0 ==>
      2 * TotalTasks(cols) * r <= 200 * DoneCount(cols) + TotalTasks(cols) < 2 * TotalTasks(cols) * (r + 1)
  {
    var total := TotalTasks(cols);
    var done := DoneCount(cols);
    if total > 0 then
      RoundRatioAtMostHundred(done, total);
      RoundRatio(100 * done, total)
    else 0
  }

  /** One done task out of three shows 33%. */
  lemma OneOfThreeIs33(cols: seq<Column>)
    requires Shaped(cols) && |cols[0].tasks| + |cols[1].tasks| == 2 && |cols[2].tasks| == 1
    ensures CompletionPercent(cols) == 33
  {
    TotalOfBoard(cols);
  }

  /** A board with as many done tasks as open ones shows 50%. */
  lemma HalfDoneIs50(cols: seq<Column>)
    requires Shaped(cols) && |cols[0].tasks| + |cols[1].tasks| == |cols[2].tasks| > 0
    ensures CompletionPercent(cols) == 50
  {
    TotalOfBoard(cols);
    var d := |cols[2].tasks|;
    var r := CompletionPercent(cols);
    assert 4 * d * r <= 202 * d < 4 * d * (r + 1);
    MulMonotone(4 * d, r + 1, 50);
    MulMonotone(4 * d, 51, r);
  }

  /** A non-empty board whose tasks are all done shows 100%. */
  lemma AllDoneIs100(cols: seq<Column>)
    requires Shaped(cols) && |cols[0].tasks| == 0 && |cols[1].tasks| == 0 && |cols[2].tasks| > 0
    ensures CompletionPercent(cols) == 100
  {
    TotalOfBoard(cols);
    var n := |cols[2].tasks|;
    var r := CompletionPercent(cols);
    MulMonotone(2 * n, r + 1, 100);
  }

  // ---------------------------------------------------------------------------------
  // Moving a task forward (moverTarea)

  /** `moverTarea(e, id, from)`: the task with `id` is spliced out of column `from` and
      pushed onto the end of the next column; from the last column nothing happens. The
      task must be in column `from`, as the card's own button guarantees. */
  function Moved(cols: seq<Column>, id: string, from: ColumnId): (r: seq<Column>)
    requires Shaped(cols) && TaskIn(cols[Position(from)].tasks, id)
    ensures Shaped(r)
    ensures from == Done ==> r == cols
  {
    ColumnFound(cols, from);
    var s := FindIndex(cols, ColumnIs(from));
    var t := s + 1;
    if t < |cols| then
      var src := cols[s].tasks;
      var k := FindIndex(src, HasId(id));
      assert k != -1;
      cols[s := cols[s].(tasks := src[..k] + src[k + 1..])][t := cols[t].(tasks := cols[t].tasks + [src[k]])]
    else cols
  }

  lemma MovedColumns(cols: seq<Column>, id: string, from: ColumnId)
    requires Shaped(cols) && TaskIn(cols[Position(from)].tasks, id) && from != Done
    ensures var r, s := Moved(cols, id, from), Position(from);
      var src, k := cols[s].tasks, FindIndex(cols[s].tasks, HasId(id));
      && 0 <= k < |src| && src[k].id == id
      && r[s].tasks == src[..k] + src[k + 1..]
      && r[s + 1].tasks == cols[s + 1].tasks + [src[k]]
      && (forall c :: 0 <= c < 3 && c != s && c != s + 1 ==> r[c] == cols[c])
      && (forall c :: 0 <= c < 3 ==> r[c].id == cols[c].id && r[c].title == cols[c].title)
  {
    ColumnFound(cols, from);
  }

  /** A move relocates one task: the board holds the same tasks as before, and as many. */
  lemma MovedKeepsTasks(cols: seq<Column>, id: string, from: ColumnId)
    requires Shaped(cols) && TaskIn(cols[Position(from)].tasks, id)
    ensures multiset(AllTasks(Moved(cols, id, from))) == multiset(AllTasks(cols))
    ensures TotalTasks(Moved(cols, id, from)) == TotalTasks(cols)
  {
    var r := Moved(cols, id, from);
    if from != Done {
      MovedRelocates(cols, id, from);
    }
    assert |multiset(AllTasks(r))| == |AllTasks(r)|;
    assert |multiset(AllTasks(cols))| == |AllTasks(cols)|;
  }

  lemma MovedRelocates(cols: seq<Column>, id: string, from: ColumnId)
    requires Shaped(cols) && TaskIn(cols[Position(from)].tasks, id) && from != Done
    ensures multiset(AllTasks(Moved(cols, id, from))) == multiset(AllTasks(cols))
  {
    MovedColumns(cols, id, from);
    RelocateBoard(cols, Moved(cols, id, from), Position(from), FindIndex(cols[Position(from)].tasks, HasId(id)));
  }

  /** Taking the task at position `k` of column `s` and appending it to column `s + 1`
      keeps the board's multiset of tasks. */
  lemma RelocateBoard(cols: seq<Column>, r: seq<Column>, s: nat, k: nat)
    requires |cols| == 3 && |r| == 3 && s < 2 && k < |cols[s].tasks|
    requires r[s].tasks == cols[s].tasks[..k] + cols[s].tasks[k + 1..]
    requires r[s + 1].tasks == cols[s + 1].tasks + [cols[s].tasks[k]]
    requires forall c :: 0 <= c < 3 && c != s && c != s + 1 ==> r[c] == cols[c]
    ensures multiset(AllTasks(r)) == multiset(AllTasks(cols))
  {
    AllTasksOfBoard(cols);
    AllTasksOfBoard(r);
    if s == 0 {
      assert r[2] == cols[2];
      RelocateFirst(cols[0].tasks, cols[1].tasks, cols[2].tasks, r[0].tasks, r[1].tasks, k);
    } else {
      assert r[0] == cols[0];
      RelocateSecond(cols[0].tasks, cols[1].tasks, cols[2].tasks, r[1].tasks, r[2].tasks, k);
    }
  }

  lemma RelocateFirst(a0: seq<Task>, a1: seq<Task>, a2: seq<Task>, b0: seq<Task>, b1: seq<Task>, k: nat)
    requires k < |a0| && b0 == a0[..k] + a0[k + 1..] && b1 == a1 + [a0[k]]
    ensures multiset(b0 + b1 + a2) == multiset(a0 + a1 + a2)
  {
    RelocateKeepsMultiset(a0, k, a1);
  }

  lemma RelocateSecond(a0: seq<Task>, a1: seq<Task>, a2: seq<Task>, b1: seq<Task>, b2: seq<Task>, k: nat)
    requires k < |a1| && b1 == a1[..k] + a1[k + 1..] && b2 == a2 + [a1[k]]
    ensures multiset(a0 + b1 + b2) == multiset(a0 + a1 + a2)
  {
    RelocateKeepsMultiset(a1, k, a2);
    assert a0 + b1 + b2 == a0 + (b1 + b2) && a0 + a1 + a2 == a0 + (a1 + a2);
  }

  lemma RelocateKeepsMultiset(src: seq<Task>, k: nat, dst: seq<Task>)
    requires k < |src|
    ensures multiset(src[..k] + src[k + 1..]) + multiset(dst + [src[k]]) == multiset(src) + multiset(dst)
  {
    assert src == src[..k] + [src[k]] + src[k + 1..];
  }

  /** A column of a board with unique ids has unique ids itself. */
  lemma ColumnUnique(cols: seq<Column>, c: nat)
    requires |cols| == 3 && UniqueIds(AllTasks(cols)) && c < 3
    ensures UniqueIds(cols[c].tasks)
  {
    var ts := cols[c].tasks;
    forall i, j | 0 <= i < j < |ts| ensures ts[i].id != ts[j].id {
      if ts[i].id == ts[j].id {
        SamePosition(cols, c, i, c, j);
      }
    }
  }

  /** In a list with unique ids, the task at `k` is the one `findIndex` finds for its id, and
      splicing it out leaves no task with that id. */
  lemma SpliceOnly(src: seq<Task>, k: nat)
    requires UniqueIds(src) && k < |src|
    ensures FindIndex(src, HasId(src[k].id)) == k
    ensures !TaskIn(src[..k] + src[k + 1..], src[k].id)
  {
    var id := src[k].id;
    var k' := FindIndex(src, HasId(id));
    assert HasId(id)(src[k]);
    assert k' != -1 && src[k'].id == id;
    var rest := src[..k] + src[k + 1..];
    forall i | 0 <= i < |rest| ensures rest[i].id != id {
      assert rest[i] == src[if i < k then i else i + 1];
    }
  }

  /** The task at position `k` of column `from` (the one with `id`) leaves that column, the
      other tasks there keep their order, it is appended unchanged to the end of the next
      column, and the third column is untouched. */
  lemma MovedEffect(cols: seq<Column>, id: string, from: ColumnId, k: nat)
    requires Shaped(cols) && UniqueIds(AllTasks(cols)) && from != Done
    requires k < |cols[Position(from)].tasks| && cols[Position(from)].tasks[k].id == id
    ensures var r, s := Moved(cols, id, from), Position(from);
      && r[s].tasks == cols[s].tasks[..k] + cols[s].tasks[k + 1..]
      && r[s + 1].tasks == cols[s + 1].tasks + [cols[s].tasks[k]]
      && !TaskIn(r[s].tasks, id)
      && (forall c :: 0 <= c < 3 && c != s && c != s + 1 ==> r[c] == cols[c])
      && (forall c :: 0 <= c < 3 ==> r[c].id == cols[c].id && r[c].title == cols[c].title)
  {
    var s := Position(from);
    ColumnUnique(cols, s);
    SpliceOnly(cols[s].tasks, k);
    assert TaskIn(cols[s].tasks, id);
    MovedColumns(cols, id, from);
  }

  /** A move keeps ids unique and changes no lookup: every task keeps its content,
      priority, comments and attachments. */
  lemma MovedKeepsLookup(cols: seq<Column>, id: string, from: ColumnId, x: string)
    requires Shaped(cols) && UniqueIds(AllTasks(cols)) && TaskIn(cols[Position(from)].tasks, id)
    ensures UniqueIds(AllTasks(Moved(cols, id, from)))
    ensures Lookup(Moved(cols, id, from), x) == Lookup(cols, x)
  {
    MovedKeepsTasks(cols, id, from);
    PermutationKeepsUnique(AllTasks(cols), AllTasks(Moved(cols, id, from)));
    SameTasksSameLookup(cols, Moved(cols, id, from), x);
  }

  // ---------------------------------------------------------------------------------
  // Appending a created task to the backlog

  /** The new task of the creation flow: the submitted text and priority, no comments and
      no attachments. */
  function NewTask(id: string, content: string, priority: Priority): Task {
    Task(id, content, priority, [], [])
  }

  /** `cols.map(col => col.id === 'todo' ? { ...col, tasks: [...col.tasks, t] } : col)`. */
  function AppendToTodo(cols: seq<Column>, t: Task): (r: seq<Column>)
    ensures |r| == |cols|
    ensures Shaped(cols) ==> Shaped(r)
  {
    seq(|cols|, i requires 0 <= i < |cols| =>
      if cols[i].id == Todo then cols[i].(tasks := cols[i].tasks + [t]) else cols[i])
  }

  /** The backlog gains exactly `t`, at its end; doing and done are unchanged. */
  lemma AppendToTodoEffect(cols: seq<Column>, t: Task)
    requires Shaped(cols)
    ensures var r := AppendToTodo(cols, t);
      && r[0].tasks == cols[0].tasks + [t] && r[0].title == cols[0].title
      && r[1] == cols[1] && r[2] == cols[2]
      && multiset(AllTasks(r)) == multiset(AllTasks(cols)) + multiset{t}
      && TotalTasks(r) == TotalTasks(cols) + 1
  {
    var r := AppendToTodo(cols, t);
    AllTasksOfBoard(cols);
    AllTasksOfBoard(r);
  }

  /** With a fresh id, the board keeps unique ids, the new task is found by its id and every
      other lookup is unchanged. */
  lemma AppendToTodoKeepsLookup(cols: seq<Column>, t: Task, x: string)
    requires Shaped(cols) && UniqueIds(AllTasks(cols)) && Lookup(cols, t.id).None?
    ensures UniqueIds(AllTasks(AppendToTodo(cols, t)))
    ensures Lookup(AppendToTodo(cols, t), t.id) == Some(t)
    ensures x != t.id ==> Lookup(AppendToTodo(cols, t), x) == Lookup(cols, x)
  {
    var r := AppendToTodo(cols, t);
    var all := AllTasks(cols);
    AppendToTodoEffect(cols, t);
    AppendFresh(all, t, x);
    PermutationKeepsUnique(all + [t], AllTasks(r));
    SameTasksSameFind(all + [t], AllTasks(r), t.id);
    SameTasksSameFind(all + [t], AllTasks(r), x);
  }

  /** The list-level form of `AppendToTodoKeepsLookup`: appending a task with a fresh id keeps
      the ids unique, finds the new task by its id and every other task as before. */
  lemma AppendFresh(all: seq<Task>, t: Task, x: string)
    requires UniqueIds(all) && Find(all, HasId(t.id)).None?
    ensures UniqueIds(all + [t])
    ensures Find(all + [t], HasId(t.id)) == Some(t)
    ensures x != t.id ==> Find(all + [t], HasId(x)) == Find(all, HasId(x))
  {
    var s := all + [t];
    forall i | 0 <= i < |all| ensures all[i].id != t.id {
      assert !HasId(t.id)(all[i]);
    }
    assert UniqueIds(s);
    LookupFinds(s, t.id, t);
    if x != t.id {
      if Find(all, HasId(x)).Some? {
        var u := Find(all, HasId(x)).value;
        LookupFinds(all, x, u);
        LookupFinds(s, x, u);
      } else {
        forall i | 0 <= i < |s| ensures !HasId(x)(s[i]) {
          if i < |all| {
            assert !HasId(x)(all[i]);
          }
        }
      }
    }
  }

  // ---------------------------------------------------------------------------------
  // Comments and attachments

  /** What a commit appends to a task: a comment or a file name. */
  datatype Edit = AddComment(text: string) | AddAttachment(name: string)

  /** `{ ...t, comments: [...t.comments, text] }` or `{ ...t, attachments: [...t.attachments, name] }`.
      Comments and attachments are append-only: an edit keeps the task's id, content and
      priority, extends one of the two lists by one entry at its end and leaves the other. */
  function Apply(t: Task, e: Edit): (u: Task)
    ensures u.id == t.id && u.content == t.content && u.priority == t.priority
    ensures t.comments <= u.comments && t.attachments <= u.attachments
    ensures |u.comments| + |u.attachments| == |t.comments| + |t.attachments| + 1
    ensures e.AddComment? ==>
      |u.comments| == |t.comments| + 1 && u.comments[|t.comments|] == e.text && u.attachments == t.attachments
    ensures e.AddAttachment? ==>
      |u.attachments| == |t.attachments| + 1 && u.attachments[|t.attachments|] == e.name && u.comments == t.comments
  {
    match e
    case AddComment(text) => t.(comments := t.comments + [text])
    case AddAttachment(name) => t.(attachments := t.attachments + [name])
  }

  /** `col.tasks.map(t => t.id === id ? <edited t> : t)`: the list keeps its length and every
      position keeps its task's id. */
  function UpdateTasks(ts: seq<Task>, id: string, e: Edit): (r: seq<Task>)
    ensures |r| == |ts|
    ensures forall i :: 0 <= i < |ts| ==> r[i].id == ts[i].id
  {
    seq(|ts|, i requires 0 <= i < |ts| => if ts[i].id == id then Apply(ts[i], e) else ts[i])
  }

  /** `columns.map(col => ({ ...col, tasks: <UpdateTasks of col.tasks> }))`: every column keeps
      its id, its title and its number of tasks. */
  function UpdateBoard(cols: seq<Column>, id: string, e: Edit): (r: seq<Column>)
    ensures |r| == |cols|
    ensures forall c :: 0 <= c < |cols| ==>
      r[c].id == cols[c].id && r[c].title == cols[c].title && |r[c].tasks| == |cols[c].tasks|
    ensures Shaped(cols) ==> Shaped(r)
  {
    seq(|cols|, i requires 0 <= i < |cols| => cols[i].(tasks := UpdateTasks(cols[i].tasks, id, e)))
  }

  lemma UpdateTasksConcat(a: seq<Task>, b: seq<Task>, id: string, e: Edit)
    ensures UpdateTasks(a + b, id, e) == UpdateTasks(a, id, e) + UpdateTasks(b, id, e)
  {
  }

  lemma UpdateBoardAllTasks(cols: seq<Column>, id: string, e: Edit)
    requires |cols| == 3
    ensures AllTasks(UpdateBoard(cols, id, e)) == UpdateTasks(AllTasks(cols), id, e)
  {
    var r := UpdateBoard(cols, id, e);
    AllTasksOfBoard(cols);
    AllTasksOfBoard(r);
    var a, b, c := cols[0].tasks, cols[1].tasks, cols[2].tasks;
    UpdateTasksConcat(a, b, id, e);
    UpdateTasksConcat(a + b, c, id, e);
  }

  /** The task with `id`, wherever it sits, is replaced in place by its edited version, and
      every other position of the board is unchanged. */
  lemma UpdateBoardInPlace(cols: seq<Column>, id: string, e: Edit, c: nat, k: nat)
    requires Shaped(cols) && UniqueIds(AllTasks(cols))
    requires c < 3 && k < |cols[c].tasks| && cols[c].tasks[k].id == id
    ensures var r := UpdateBoard(cols, id, e);
      && Shaped(r)
      && r[c].tasks[k] == Apply(cols[c].tasks[k], e)
      && (forall c' :: 0 <= c' < 3 ==> |r[c'].tasks| == |cols[c'].tasks| && r[c'].title == cols[c'].title)
      && (forall c', j :: 0 <= c' < 3 && 0 <= j < |cols[c'].tasks| && (c', j) != (c, k) ==>
            r[c'].tasks[j] == cols[c'].tasks[j])
  {
    var r := UpdateBoard(cols, id, e);
    forall c', j | 0 <= c' < 3 && 0 <= j < |cols[c'].tasks| && (c', j) != (c, k)
      ensures r[c'].tasks[j] == cols[c'].tasks[j]
    {
      if cols[c'].tasks[j].id == id {
        SamePosition(cols, c', j, c, k);
      }
    }
  }

  /** Editing the tasks with `id` leaves the search for any other id unchanged. */
  lemma UpdateTasksOtherFind(all: seq<Task>, id: string, e: Edit, x: string)
    requires x != id
    ensures Find(UpdateTasks(all, id, e), HasId(x)) == Find(all, HasId(x))
  {
    var all' := UpdateTasks(all, id, e);
    var k, k' := FindIndex(all, HasId(x)), FindIndex(all', HasId(x));
    assert k == k' by {
      assert forall i :: 0 <= i < |all| ==> (HasId(x)(all'[i]) <==> HasId(x)(all[i]));
    }
    if k >= 0 {
      assert all'[k] == all[k];
    }
  }

  /** The list-level form of `UpdateBoardLookup`: editing the task found by `id` keeps the ids
      unique, finds the edited task by `id` and every other task as before. */
  lemma UpdateTasksFind(all: seq<Task>, id: string, e: Edit, t: Task, x: string)
    requires UniqueIds(all) && Find(all, HasId(id)) == Some(t)
    ensures UniqueIds(UpdateTasks(all, id, e))
    ensures Find(UpdateTasks(all, id, e), HasId(id)) == Some(Apply(t, e))
    ensures x != id ==> Find(UpdateTasks(all, id, e), HasId(x)) == Find(all, HasId(x))
  {
    var all' := UpdateTasks(all, id, e);
    assert UniqueIds(all') by {
      assert forall i :: 0 <= i < |all| ==> all'[i].id == all[i].id;
    }
    LookupFinds(all, id, t);
    var i :| 0 <= i < |all| && all[i] == t;
    assert all'[i] == Apply(t, e);
    LookupFinds(all', id, Apply(t, e));
    if x != id {
      UpdateTasksOtherFind(all, id, e, x);
    }
  }

  /** After the edit the board keeps unique ids, the id now looks up the edited task, and
      every other lookup is unchanged. */
  lemma UpdateBoardLookup(cols: seq<Column>, id: string, e: Edit, t: Task, x: string)
    requires Shaped(cols) && UniqueIds(AllTasks(cols)) && Lookup(cols, id) == Some(t)
    ensures Shaped(UpdateBoard(cols, id, e))
    ensures UniqueIds(AllTasks(UpdateBoard(cols, id, e)))
    ensures Lookup(UpdateBoard(cols, id, e), id) == Some(Apply(t, e))
    ensures x != id ==> Lookup(UpdateBoard(cols, id, e), x) == Lookup(cols, x)
  {
    UpdateBoardAllTasks(cols, id, e);
    UpdateTasksFind(AllTasks(cols), id, e, t, x);
  }
}
