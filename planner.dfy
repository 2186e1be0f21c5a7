/** The planner component: the board it owns, the two simulated flows with their busy
    flags (`isCreatingTask`, `isUploading`), the task shown in the detail panel
    (`taskDetail`) and the three inputs the handlers read. Each `setInterval` or
    `setTimeout` callback is one method call. */
module Planner {
  import opened Board
  import opened Text
  import opened Progress

  /** `isCreatingTask` with the counter of the running interval, and the description and
      priority the submitted handler captured. */
  datatype Creation = NotCreating | Creating(percent: nat, content: string, priority: Priority)

  /** `isUploading` with the counter of the running interval, and the selected task's id
      and the file name the handler captured. */
  datatype Upload = NotUploading | Uploading(percent: nat, taskId: string, fileName: string)

  /** The part of the planner's invariant that ties the board to the detail panel and the
      upload target: three columns in order, unique task ids, the panel shows the board's own
      version of its task, and a running upload names a task on the board. */
  predicate Consistent(cols: seq<Column>, detail: Option<Task>, upload: Upload) {
    && Shaped(cols)
    && UniqueIds(AllTasks(cols))
    && (detail.Some? ==> Lookup(cols, detail.value.id) == detail)
    && (upload.Uploading? ==> Lookup(cols, upload.taskId).Some?)
  }

  /** Clicking a card that is on the board keeps the planner consistent. */
  lemma SelectKeepsConsistent(cols: seq<Column>, detail: Option<Task>, upload: Upload, t: Task)
    requires Consistent(cols, detail, upload) && t in AllTasks(cols)
    ensures Consistent(cols, Some(t), upload) && Consistent(cols, None, upload)
  {
    LookupFinds(AllTasks(cols), t.id, t);
  }

  /** Committing a new card with a fresh id keeps the planner consistent, and the card is then
      found by its id. */
  lemma SettleKeepsConsistent(cols: seq<Column>, detail: Option<Task>, upload: Upload, t: Task)
    requires Consistent(cols, detail, upload) && Lookup(cols, t.id).None?
    ensures Consistent(AppendToTodo(cols, t), detail, upload)
    ensures Lookup(AppendToTodo(cols, t), t.id) == Some(t)
  {
    AppendToTodoKeepsLookup(cols, t, t.id);
    if detail.Some? {
      AppendToTodoKeepsLookup(cols, t, detail.value.id);
    }
    if upload.Uploading? {
      LookupIsOnBoard(cols, t.id);
      LookupIsOnBoard(cols, upload.taskId);
      AppendToTodoKeepsLookup(cols, t, upload.taskId);
    }
  }

  /** Moving a card keeps the planner consistent: the detail panel and a running upload still
      find their task, unchanged. */
  lemma MoveKeepsConsistent(cols: seq<Column>, detail: Option<Task>, upload: Upload, id: string, from: ColumnId)
    requires Consistent(cols, detail, upload) && TaskIn(cols[Position(from)].tasks, id)
    ensures Consistent(Moved(cols, id, from), detail, upload)
  {
    MovedKeepsLookup(cols, id, from, id);
    if detail.Some? {
      MovedKeepsLookup(cols, id, from, detail.value.id);
    }
    if upload.Uploading? {
      MovedKeepsLookup(cols, id, from, upload.taskId);
    }
  }

  /** Appending a comment or a file name to a task on the board, and showing that task's new
      version in the panel, keeps the planner consistent; a running upload stays on the board. */
  lemma EditKeepsConsistent(cols: seq<Column>, detail: Option<Task>, upload: Upload, id: string, e: Edit)
    requires Consistent(cols, detail, upload) && Lookup(cols, id).Some?
    ensures var r := UpdateBoard(cols, id, e);
      && Lookup(r, id) == Some(Apply(Lookup(cols, id).value, e))
      && Consistent(r, Lookup(r, id), upload)
      && Consistent(r, None, upload)
  {
    var t := Lookup(cols, id).value;
    UpdateBoardLookup(cols, id, e, t, id);
    if upload.Uploading? {
      UpdateBoardLookup(cols, id, e, t, upload.taskId);
    }
  }

  ghost predicate PlannerInv(cols: seq<Column>, detail: Option<Task>, creation: Creation, createTicks: nat, upload: Upload, uploadTicks: nat) {
    && Consistent(cols, detail, upload)
    && (creation.Creating? ==> creation.percent == AfterTicks(CreateStep, createTicks))
    && (upload.Uploading? ==>
          upload.percent == AfterTicks(UploadStep, uploadTicks) && upload.percent < Complete)
  }

  /** The same for the whole invariant. */
  lemma EditKeepsInv(cols: seq<Column>, detail: Option<Task>, creation: Creation, createTicks: nat,
                     upload: Upload, uploadTicks: nat, id: string, e: Edit)
    requires PlannerInv(cols, detail, creation, createTicks, upload, uploadTicks) && Lookup(cols, id).Some?
    ensures var r := UpdateBoard(cols, id, e);
      && Lookup(r, id) == Some(Apply(Lookup(cols, id).value, e))
      && PlannerInv(r, Lookup(r, id), creation, createTicks, upload, uploadTicks)
  {
    EditKeepsConsistent(cols, detail, upload, id, e);
  }

  class KanbanPlanner {
    var columns: seq<Column>
    var creation: Creation
    var upload: Upload
    var detail: Option<Task>
    var newTaskText: string
    var newPriority: Priority
    var commentInput: string
    /** How many creation and upload ticks the running intervals have fired. */
    ghost var createTicks: nat
    ghost var uploadTicks: nat

    /** The board keeps its three columns and unique task ids; the detail panel shows the
        board's own version of the selected task; each running counter is the value of its
        interval after the ticks fired so far; a running upload targets a task on the board. */
    ghost predicate Valid()
      reads this
    {
      PlannerInv(columns, detail, creation, createTicks, upload, uploadTicks)
    }

    constructor ()
      ensures Valid()
      ensures columns == InitialColumns() && creation == NotCreating && upload == NotUploading
      ensures detail == None && newTaskText == "" && newPriority == Media && commentInput == ""
    {
      columns := InitialColumns();
      creation := NotCreating;
      upload := NotUploading;
      detail := None;
      newTaskText := "";
      newPriority := Media;
      commentInput := "";
      createTicks, uploadTicks := 0, 0;
    }

    /** The description box's onChange. */
    method TypeTaskText(s: string)
      requires Valid()
      modifies this`newTaskText
      ensures Valid() && newTaskText == s
    {
      newTaskText := s;
    }

    /** A priority button's onClick. */
    method ChoosePriority(p: Priority)
      requires Valid()
      modifies this`newPriority
      ensures Valid() && newPriority == p
    {
      newPriority := p;
    }

    /** The comment box's onChange. */
    method TypeComment(s: string)
      requires Valid()
      modifies this`commentInput
      ensures Valid() && commentInput == s
    {
      commentInput := s;
    }

    /** `handleAddTask`: a blank description, or a creation already in flight, is ignored
        and leaves the running counter alone; otherwise the flow starts at 0 with the
        current description and priority. */
    method SubmitTask() returns (accepted: bool)
      requires Valid()
      modifies this`creation, this`createTicks
      ensures Valid()
      ensures accepted <==> !IsBlank(newTaskText) && old(creation).NotCreating?
      ensures accepted ==> creation == Creating(0, newTaskText, newPriority) && createTicks == 0
      ensures !accepted ==> creation == old(creation) && createTicks == old(createTicks)
    {
      if TrimsToEmpty(newTaskText) || creation.Creating? {
        return false;
      }
      creation := Creating(0, newTaskText, newPriority);
      createTicks := 0;
      return true;
    }

    /** One call of the creation interval: `progress += 20` while the interval runs; it is
        cleared on the tick that reaches 100, so later ticks change nothing. The counter
        never passes 100 and reaches it on the fifth tick. */
    method CreateTick()
      requires Valid()
      modifies this`creation, this`createTicks
      ensures Valid()
      ensures old(creation).Creating? && old(creation).percent < Complete ==>
        creation == old(creation).(percent := old(creation).percent + CreateStep)
        && createTicks == old(createTicks) + 1
      ensures !(old(creation).Creating? && old(creation).percent < Complete) ==>
        creation == old(creation) && createTicks == old(createTicks)
      ensures creation.Creating? ==>
        creation.percent <= Complete && (creation.percent == Complete <==> createTicks >= 5)
    {
      if creation.Creating? && creation.percent < Complete {
        creation := creation.(percent := creation.percent + CreateStep);
        createTicks := createTicks + 1;
      }
      CreationFinishesAfterFiveTicks(createTicks);
    }

    /** The settle timeout after the creation counter reached 100: a task with a fresh id,
        the captured description and priority and no comments or attachments is appended
        to the backlog of the board as it is now; the description box is cleared and the
        flow is idle again. Before the counter reaches 100 there is no timeout. */
    method CreateSettle(id: string) returns (committed: bool)
      requires Valid() && Lookup(columns, id).None?
      modifies this`columns, this`creation, this`newTaskText
      ensures Valid()
      ensures committed <==> old(creation).Creating? && old(creation).percent >= Complete
      ensures committed ==>
        && columns == AppendToTodo(old(columns), NewTask(id, old(creation).content, old(creation).priority))
        && columns[0].tasks == old(columns)[0].tasks + [Task(id, old(creation).content, old(creation).priority, [], [])]
        && columns[1] == old(columns)[1] && columns[2] == old(columns)[2]
        && creation == NotCreating && newTaskText == ""
      ensures !committed ==>
        columns == old(columns) && creation == old(creation) && newTaskText == old(newTaskText)
    {
      if !(creation.Creating? && creation.percent >= Complete) {
        return false;
      }
      var t := NewTask(id, creation.content, creation.priority);
      SettleKeepsConsistent(columns, detail, upload, t);
      AppendToTodoEffect(columns, t);
      columns := AppendToTodo(columns, t);
      creation := NotCreating;
      newTaskText := "";
      return true;
    }

    /** `moverTarea`: the task is spliced out of its column and pushed onto the next one; a
        move out of the last column does nothing. The card's button only ever names a task of
        the column it is drawn in. */
    method MoveTask(taskId: string, from: ColumnId)
      requires Valid() && TaskIn(columns[Position(from)].tasks, taskId)
      modifies this`columns
      ensures Valid()
      ensures columns == Moved(old(columns), taskId, from)
    {
      ColumnFound(columns, from);
      var newCols := columns;
      var sourceColIndex := FindIndex(newCols, ColumnIs(from));
      var targetColIndex := sourceColIndex + 1;
      if targetColIndex < |newCols| {
        var sourceTasks := newCols[sourceColIndex].tasks;
        var taskIndex := FindIndex(sourceTasks, HasId(taskId));
        var task := sourceTasks[taskIndex];
        newCols := newCols[sourceColIndex := newCols[sourceColIndex].(tasks := sourceTasks[..taskIndex] + sourceTasks[taskIndex + 1..])];
        newCols := newCols[targetColIndex := newCols[targetColIndex].(tasks := newCols[targetColIndex].tasks + [task])];
      }
      assert newCols == Moved(columns, taskId, from);
      MoveKeepsConsistent(columns, detail, upload, taskId, from);
      columns := newCols;
    }

    /** A card's onClick: the detail panel shows that task. */
    method SelectTask(t: Task)
      requires Valid() && t in AllTasks(columns)
      modifies this`detail
      ensures Valid() && detail == Some(t)
    {
      SelectKeepsConsistent(columns, detail, upload, t);
      detail := Some(t);
    }

    /** The detail panel's close button and backdrop. */
    method CloseDetail()
      requires Valid()
      modifies this`detail
      ensures Valid() && detail == None
    {
      detail := None;
    }

    /** `handleAddComment`: a blank comment, or no selected task, changes nothing; otherwise
        the comment, untrimmed, is appended to the selected task's comments wherever it sits,
        the detail panel shows the updated task and the comment box is cleared. */
    method SubmitComment() returns (accepted: bool)
      requires Valid()
      modifies this`columns, this`detail, this`commentInput
      ensures Valid()
      ensures accepted <==> !IsBlank(old(commentInput)) && old(detail).Some?
      ensures accepted ==>
        && columns == UpdateBoard(old(columns), old(detail).value.id, AddComment(old(commentInput)))
        && detail == Some(Apply(old(detail).value, AddComment(old(commentInput))))
        && commentInput == ""
      ensures !accepted ==>
        columns == old(columns) && detail == old(detail) && commentInput == old(commentInput)
    {
      if TrimsToEmpty(commentInput) || detail.None? {
        return false;
      }
      CommitEdit(detail.value.id, AddComment(commentInput));
      commentInput := "";
      return true;
    }

    /** `handleFileUpload`: no file, no selected task, or an upload already in flight is
        ignored; otherwise the upload of that file for the selected task starts at 0. */
    method PickFile(file: Option<string>) returns (accepted: bool)
      requires Valid()
      modifies this`upload, this`uploadTicks
      ensures Valid()
      ensures accepted <==> file.Some? && detail.Some? && old(upload).NotUploading?
      ensures accepted ==> upload == Uploading(0, detail.value.id, file.value) && uploadTicks == 0
      ensures !accepted ==> upload == old(upload) && uploadTicks == old(uploadTicks)
    {
      if file.None? || detail.None? || upload.Uploading? {
        return false;
      }
      upload := Uploading(0, detail.value.id, file.value);
      uploadTicks := 0;
      return true;
    }

    /** One call of the upload interval: `progress += 25`; on the tick that reaches 100 (the
        fourth) the interval is cleared, the file name is appended to the target task's
        attachments on the board as it is now, the detail panel shows that updated task and
        the flow is idle again. Until then the attachments are untouched. */
    method UploadTick()
      requires Valid()
      modifies this`columns, this`detail, this`upload, this`uploadTicks
      ensures Valid()
      ensures old(upload).NotUploading? ==>
        columns == old(columns) && detail == old(detail) && upload == old(upload) && uploadTicks == old(uploadTicks)
      ensures old(upload).Uploading? && old(upload).percent + UploadStep < Complete ==>
        && upload == old(upload).(percent := old(upload).percent + UploadStep)
        && uploadTicks == old(uploadTicks) + 1 && uploadTicks < 4
        && columns == old(columns) && detail == old(detail)
      ensures old(upload).Uploading? && old(upload).percent + UploadStep >= Complete ==>
        && old(uploadTicks) + 1 == 4
        && upload == NotUploading
        && columns == UpdateBoard(old(columns), old(upload).taskId, AddAttachment(old(upload).fileName))
        && detail == Some(Apply(Lookup(old(columns), old(upload).taskId).value, AddAttachment(old(upload).fileName)))
    {
      if upload.NotUploading? {
        return;
      }
      var progress := upload.percent + UploadStep;
      UploadFinishesAfterFourTicks(uploadTicks);
      UploadFinishesAfterFourTicks(uploadTicks + 1);
      if progress < Complete {
        upload := upload.(percent := progress);
        uploadTicks := uploadTicks + 1;
        return;
      }
      var id, name := upload.taskId, upload.fileName;
      upload := NotUploading;
      CommitEdit(id, AddAttachment(name));
    }

    /** The commit shared by the comment handler and the last upload tick: the board maps
        every column's tasks, editing the task with `id`, and the detail panel is set to that
        edited task. */
    method CommitEdit(id: string, e: Edit)
      requires Valid() && Lookup(columns, id).Some?
      modifies this`columns, this`detail
      ensures Valid()
      ensures columns == UpdateBoard(old(columns), id, e)
      ensures detail == Some(Apply(Lookup(old(columns), id).value, e))
    {
      EditKeepsInv(columns, detail, creation, createTicks, upload, uploadTicks, id, e);
      var updatedCols := UpdateBoard(columns, id, e);
      columns, detail := updatedCols, Lookup(updatedCols, id);
    }
  }

  /** A session on a fresh planner: the user writes "Fix bug" at high priority, the creation
      bar runs to 100 and settles, the card is moved twice to the last column (alongside the
      starting task, which stays in the backlog, so half of the board is done), then a file
      is attached to it, which lands only on the fourth upload tick. */
  method FixBugSession() {
    var p := new KanbanPlanner();
    StartFixBug(p);
    RunCreationBar(p);
    var t := SettleFixBug(p);
    MoveFixBugForward(p, t);
    MoveFixBugToDone(p, t);
    AttachToFixBug(p, t);
  }

  /** The form is filled in and submitted. */
  method StartFixBug(p: KanbanPlanner)
    requires p.Valid() && p.creation.NotCreating?
    modifies p`newTaskText, p`newPriority, p`creation, p`createTicks
    ensures p.Valid() && p.creation == Creating(0, "Fix bug", Alta) && p.createTicks == 0
  {
    p.TypeTaskText("Fix bug");
    p.ChoosePriority(Alta);
    var submitted := p.SubmitTask();
    assert !IsJsSpace("Fix bug"[0]);
    assert submitted;
  }

  /** Five creation ticks take the bar from 0 to 100. */
  method RunCreationBar(p: KanbanPlanner)
    requires p.Valid() && p.creation.Creating? && p.creation.percent == 0 && p.createTicks == 0
    modifies p`creation, p`createTicks
    ensures p.Valid() && p.creation == old(p.creation).(percent := Complete)
  {
    p.CreateTick();
    p.CreateTick();
    p.CreateTick();
    p.CreateTick();
    p.CreateTick();
  }

  /** The settle step of the session: the card with id "x" joins the backlog. */
  method SettleFixBug(p: KanbanPlanner) returns (t: Task)
    requires p.Valid() && p.columns == InitialColumns()
    requires p.creation == Creating(Complete, "Fix bug", Alta) && p.upload.NotUploading?
    modifies p`columns, p`creation, p`newTaskText
    ensures p.Valid() && p.upload.NotUploading? && p.creation.NotCreating?
    ensures t == NewTask("x", "Fix bug", Alta)
    ensures p.columns == [Column(Todo, "Backlog Proyecto", InitialColumns()[0].tasks + [t]),
                          InitialColumns()[1], InitialColumns()[2]]
  {
    LookupIsOnBoard(p.columns, "x");
    var committed := p.CreateSettle("x");
    assert committed;
    t := NewTask("x", "Fix bug", Alta);
    ghost var b := InitialColumns();
    assert p.columns[0] == Column(Todo, "Backlog Proyecto", b[0].tasks + [t]);
  }

  /** The card goes from the backlog to in progress. */
  method MoveFixBugForward(p: KanbanPlanner, t: Task)
    requires p.Valid() && t.id == "x"
    requires p.columns == [Column(Todo, "Backlog Proyecto", InitialColumns()[0].tasks + [t]),
                           InitialColumns()[1], InitialColumns()[2]]
    modifies p`columns
    ensures p.Valid()
    ensures p.columns[0].tasks == InitialColumns()[0].tasks && p.columns[1].tasks == [t]
    ensures p.columns[2].tasks == []
  {
    var init := InitialColumns()[0].tasks;
    ghost var b1 := p.columns;
    assert TaskIn(b1[0].tasks, "x") by { assert b1[0].tasks[1] == t; }
    p.MoveTask("x", Todo);
    assert FindIndex(b1[0].tasks, HasId("x")) == 1;
    MovedColumns(b1, "x", Todo);
    assert (init + [t])[..1] + (init + [t])[2..] == init;
  }

  /** The card goes from in progress to done; half the board is then done. */
  method MoveFixBugToDone(p: KanbanPlanner, t: Task)
    requires p.Valid() && t.id == "x"
    requires p.columns[0].tasks == InitialColumns()[0].tasks && p.columns[1].tasks == [t]
    requires p.columns[2].tasks == []
    modifies p`columns
    ensures p.Valid()
    ensures p.columns[0].tasks == InitialColumns()[0].tasks && p.columns[1].tasks == []
    ensures p.columns[2].tasks == [t]
    ensures CompletionPercent(p.columns) == 50
  {
    ghost var b2 := p.columns;
    assert TaskIn(b2[1].tasks, "x") by { assert b2[1].tasks[0] == t; }
    p.MoveTask("x", Doing);
    assert FindIndex(b2[1].tasks, HasId("x")) == 0;
    MovedColumns(b2, "x", Doing);
    HalfDoneIs50(p.columns);
  }

  /** The done card gets an attachment: nothing lands before the fourth upload tick. */
  method AttachToFixBug(p: KanbanPlanner, t: Task)
    requires p.Valid() && p.upload.NotUploading? && p.columns[2].tasks == [t]
    modifies p`detail, p`upload, p`uploadTicks, p`columns
    ensures p.upload.NotUploading? && p.detail == Some(t.(attachments := t.attachments + ["spec.pdf"]))
    ensures p.Valid() && Lookup(p.columns, t.id) == p.detail
  {
    assert t in AllTasks(p.columns) by {
      AllTasksOfBoard(p.columns);
    }
    p.SelectTask(t);
    var picked := p.PickFile(Some("spec.pdf"));
    assert picked;
    RunUploadBar(p);
    p.UploadTick();
  }

  /** Three upload ticks take the bar to 75 and commit nothing. */
  method RunUploadBar(p: KanbanPlanner)
    requires p.Valid() && p.upload.Uploading? && p.upload.percent == 0 && p.uploadTicks == 0
    modifies p`upload, p`uploadTicks, p`columns, p`detail
    ensures p.Valid() && p.upload == old(p.upload).(percent := 75) && p.uploadTicks == 3
    ensures p.columns == old(p.columns) && p.detail == old(p.detail)
  {
    p.UploadTick();
    p.UploadTick();
    p.UploadTick();
  }
}
