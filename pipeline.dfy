/** The whole run: resolve the board and the list (a missing one aborts the
    run before anything else happens), build the member and label
    dictionaries, filter, clean and reclassify the rows, split them into
    subsets and run the card loop. */
module Pipeline {

  import opened Resolve
  import opened Sheet
  import opened Batches
  import opened Sync

  /** The two `ValueError`s the script raises. */
  datatype RunError = BoardNotFound(boardName: string) | ListNotFound(listName: string)

  datatype RunResult = Aborted(error: RunError) | Completed(trace: seq<Event>)

  function ContextFor(b: Board, l: BoardList): Context
  {
    Context(l.id, LabelIndex(b), MemberIndex(b))
  }

  /** The context the card loop looks things up in: the target list's id,
      `label_dict` holding for each of its names a board label of that name,
      and `member_dict` holding every member's full name, under which a
      member whose name no later member repeats finds its own id. */
  lemma ContextLookups(b: Board, l: BoardList)
    ensures ContextFor(b, l).listId == l.id
    ensures forall n :: n in ContextFor(b, l).labels <==> exists i :: 0 <= i < |b.labels| && b.labels[i].name == n
    ensures forall n :: n in ContextFor(b, l).labels ==>
      ContextFor(b, l).labels[n] in b.labels && ContextFor(b, l).labels[n].name == n
    ensures forall n :: n in ContextFor(b, l).members <==> exists i :: 0 <= i < |b.members| && b.members[i].fullName == n
    ensures forall i :: 0 <= i < |b.members| && (forall j :: i < j < |b.members| ==> b.members[j].fullName != b.members[i].fullName) ==>
      ContextFor(b, l).members[b.members[i].fullName] == b.members[i].id
  {
    var ctx := ContextFor(b, l);
    forall n | n in ctx.labels
      ensures ctx.labels[n] in b.labels && ctx.labels[n].name == n
    {
      LabelIndexNamesMatch(b.labels, n);
    }
    forall i | 0 <= i < |b.members| && (forall j :: i < j < |b.members| ==> b.members[j].fullName != b.members[i].fullName)
      ensures ctx.members[b.members[i].fullName] == b.members[i].id
    {
      IndexLastWins(b.members, MemberKey, MemberId, i);
    }
  }

  /** `boards` is what `list_boards()` returns; `raw` is the projected sheet. */
  method Run(boards: seq<Board>, boardName: string, listName: string, raw: seq<Row>, remote: Remote)
    returns (res: RunResult)
    ensures FirstNamed(boards, BoardName, boardName).None? ==> res == Aborted(BoardNotFound(boardName))
    ensures FirstNamed(boards, BoardName, boardName).Some? ==>
      var b := FirstNamed(boards, BoardName, boardName).value;
      && (FirstNamed(b.lists, ListName, listName).None? ==> res == Aborted(ListNotFound(listName)))
      && (FirstNamed(b.lists, ListName, listName).Some? ==>
            var l := FirstNamed(b.lists, ListName, listName).value;
            res == Completed(SyncEvents(Chunks(Prepare(raw)), ContextFor(b, l), remote)))
  {
    var board := FindByName(boards, BoardName, boardName);
    if board.None? {
      return Aborted(BoardNotFound(boardName));
    }
    var list := FindByName(board.value.lists, ListName, listName);
    if list.None? {
      return Aborted(ListNotFound(listName));
    }
    var ctx := ContextFor(board.value, list.value);
    var kept := Filter(raw);
    var frame := new Row[|kept|](i requires 0 <= i < |kept| => kept[i]);
    CleanInPlace(frame);
    assert frame[..] == CleanAll(kept);
    var rows := ReclassifyAll(frame[..]);
    var subsets := Chunks(rows);
    var trace := ProcessSubsets(subsets, ctx, remote);
    return Completed(trace);
  }

  /** What a completed run does, for any answers of the remote board:
      every prepared row's card creation is attempted and the events of each
      row are exactly its own try-block; rows are handled in order; there
      are ceil(N / 100) - 1 pauses, each between two subsets of 100 rows and
      none at the end. */
  lemma CompletedRun(raw: seq<Row>, ctx: Context, remote: Remote)
    ensures var rows := Prepare(raw);
      var t := SyncEvents(Chunks(rows), ctx, remote);
      && WithoutSleeps(t) == Flatten(RowBlocks(rows, 0, ctx, remote))
      && (forall i :: 0 <= i < |rows| ==> EventsOf(t, i) == RowEvents(i, rows[i], ctx, remote))
      && (forall i :: 0 <= i < |rows| ==>
            Issued(i, CreateCall(rows[i], ctx), remote.accepts(i, CreateCall(rows[i], ctx))) in t)
      && Ordered(t)
      && RowsWithin(t, 0, |rows|)
      && CountSleeps(t) == (if rows == [] then 0 else (|rows| + BatchSize - 1) / BatchSize - 1)
      && PausesBetweenSubsets(t)
  {
    SyncRows(Chunks(Prepare(raw)), Prepare(raw), ctx, remote);
    SyncPauses(Chunks(Prepare(raw)), Prepare(raw), ctx, remote);
  }

  /** 150 cleaned rows: two subsets, one pause, and it comes right before the
      card of row 100. */
  lemma HundredFiftyRows(raw: seq<Row>, ctx: Context, remote: Remote)
    requires |Prepare(raw)| == 150
    ensures |Chunks(Prepare(raw))| == 2
    ensures var t := SyncEvents(Chunks(Prepare(raw)), ctx, remote);
      && CountSleeps(t) == 1
      && forall p :: 0 <= p < |t| && t[p].Sleep? ==>
           p + 1 < |t| && t[p + 1].Issued? && t[p + 1].row == BatchSize && t[p + 1].call.AddCard?
  {
    CompletedRun(raw, ctx, remote);
    OnlyPauseAtHundred(SyncEvents(Chunks(Prepare(raw)), ctx, remote), 150);
  }

  /** With fewer than 200 rows, a pause can only come before row 100. */
  lemma OnlyPauseAtHundred(t: seq<Event>, n: nat)
    requires n < 2 * BatchSize && PausesBetweenSubsets(t) && RowsWithin(t, 0, n)
    ensures forall p :: 0 <= p < |t| && t[p].Sleep? ==>
      p + 1 < |t| && t[p + 1].Issued? && t[p + 1].row == BatchSize && t[p + 1].call.AddCard?
  {
    forall p | 0 <= p < |t| && t[p].Sleep?
      ensures p + 1 < |t| && t[p + 1].Issued? && t[p + 1].row == BatchSize && t[p + 1].call.AddCard?
    {
      assert 0 < p < |t| - 1 && t[p + 1].Issued? && t[p - 1].Issued?;
      var r := t[p + 1].row;
      assert r == t[p - 1].row + 1 && r % BatchSize == 0;
      assert r < n;
      assert r / BatchSize == 1;
    }
  }
}
