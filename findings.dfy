/** The creation commit. The settle timeout of the creation flow appends the new card to the
    board value its handler captured when the form was submitted, not to the board as it is
    when the timeout fires. Anything committed to the board in between, such as an upload
    that completes while the creation bar runs, is overwritten. The planner class commits
    against the current board (`Board.AppendToTodo` on its `columns` field); this module
    states both behaviours and the input that tells them apart. */
module StaleCreation {
  import opened Board

  /** As written: the board after the commit is the board captured at submit time plus the new
      card, whatever `atCommit` holds. */
  function CommitAsWritten(atSubmit: seq<Column>, atCommit: seq<Column>, t: Task): (r: seq<Column>)
    requires Shaped(atSubmit)
    ensures Shaped(r)
    ensures r[0].tasks == atSubmit[0].tasks + [t] && r[1] == atSubmit[1] && r[2] == atSubmit[2]
  {
    AppendToTodoEffect(atSubmit, t);
    AppendToTodo(atSubmit, t)
  }

  /** As written, an attachment committed between submit and commit is lost: the task is found
      again in the state it had at submit time. */
  lemma CommitAsWrittenLosesUpload(atSubmit: seq<Column>, t: Task, id: string, name: string)
    requires Shaped(atSubmit) && UniqueIds(AllTasks(atSubmit))
    requires Lookup(atSubmit, id).Some? && Lookup(atSubmit, t.id).None?
    ensures var during := UpdateBoard(atSubmit, id, AddAttachment(name));
      var r := CommitAsWritten(atSubmit, during, t);
      && Lookup(during, id) == Some(Lookup(atSubmit, id).value.(attachments := Lookup(atSubmit, id).value.attachments + [name]))
      && Lookup(r, id) == Lookup(atSubmit, id)
  {
    UpdateBoardLookup(atSubmit, id, AddAttachment(name), Lookup(atSubmit, id).value, id);
    LookupIsOnBoard(atSubmit, t.id);
    LookupIsOnBoard(atSubmit, id);
    AppendToTodoKeepsLookup(atSubmit, t, id);
  }

  /** The concrete case: the starting card "1" receives "informe.pdf" while a creation is in
      flight; after the commit as written, card "1" has no attachment again. */
  lemma InformeLostExample()
    ensures var before := InitialColumns();
      var during := UpdateBoard(before, "1", AddAttachment("informe.pdf"));
      var after := CommitAsWritten(before, during, NewTask("x", "Fix bug", Alta));
      && during[0].tasks[0].attachments == ["informe.pdf"]
      && after[0].tasks[0].id == "1" && after[0].tasks[0].attachments == []
  {
    var before := InitialColumns();
    var during := UpdateBoard(before, "1", AddAttachment("informe.pdf"));
    assert during[0].tasks[0] == Apply(before[0].tasks[0], AddAttachment("informe.pdf"));
  }

  /** Intended: committing against the board as it is when the timeout fires keeps the
      attachment that landed meanwhile, and every other card as it was. */
  lemma CommitAgainstCurrentKeepsUpload(atSubmit: seq<Column>, t: Task, id: string, name: string, x: string)
    requires Shaped(atSubmit) && UniqueIds(AllTasks(atSubmit))
    requires Lookup(atSubmit, id).Some? && Lookup(atSubmit, t.id).None?
    ensures var during := UpdateBoard(atSubmit, id, AddAttachment(name));
      var r := AppendToTodo(during, t);
      && Lookup(r, id) == Some(Apply(Lookup(atSubmit, id).value, AddAttachment(name)))
      && Lookup(r, t.id) == Some(t)
      && (x != id && x != t.id ==> Lookup(r, x) == Lookup(atSubmit, x))
  {
    var e := AddAttachment(name);
    var target := Lookup(atSubmit, id).value;
    var during := UpdateBoard(atSubmit, id, e);
    LookupIsOnBoard(atSubmit, t.id);
    LookupIsOnBoard(atSubmit, id);
    UpdateBoardLookup(atSubmit, id, e, target, id);
    UpdateBoardLookup(atSubmit, id, e, target, t.id);
    UpdateBoardLookup(atSubmit, id, e, target, x);
    AppendToTodoKeepsLookup(during, t, id);
    AppendToTodoKeepsLookup(during, t, x);
  }
}
