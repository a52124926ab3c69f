/** The card loop: for every subset, for every row, a try-block that
    creates the card and then adds the label, assigns the member and fills
    the "Order Volume" custom field, with a pause between subsets. The
    remote board is an oracle; what the loop does is recorded as a trace of
    remote calls (each with the oracle's answer) and pauses. */
module Sync {

  import opened Wrappers
  import opened Resolve
  import opened Sheet
  import opened Cards
  import opened Batches

  const OrderVolume := "Order Volume"

  /** One remote call. `SetCustomField` is the assignment `cf.value = umsatz`. */
  datatype Call =
    | AddCard(listId: string, card: Payload)
    | AddLabel(labelRef: Label)
    | AssignMember(memberId: string)
    | GetCustomField(fieldName: string)
    | SetCustomField(value: Option<int>)

  /** `Issued(k, c, ok)`: call `c` was made for row `k` (the position of the
      row among the cleaned rows) and succeeded iff `ok`. `Sleep` is the
      60-second pause between two subsets. */
  datatype Event = Issued(row: nat, call: Call, ok: bool) | Sleep

  /** The remote board's behaviour: whether a call made for row `k` succeeds
      (a call that does not succeed raises), and whether the card created for
      row `k` has a custom field named "Order Volume". */
  datatype Remote = Remote(accepts: (nat, Call) -> bool, hasOrderVolume: nat -> bool)

  /** What the loop looks things up in: the target list, `label_dict` and
      `member_dict`. */
  datatype Context = Context(listId: string, labels: map<string, Label>, members: map<string, string>)

  predicate LabelPlanned(r: Row, ctx: Context)
  {
    r.status.Some? && r.status.value in ctx.labels
  }

  predicate MemberPlanned(r: Row, ctx: Context)
  {
    r.pl.Some? && r.pl.value in ctx.members
  }

  function CreateCall(r: Row, ctx: Context): Call
  {
    AddCard(ctx.listId, CardPayload(r))
  }

  function LabelCalls(r: Row, ctx: Context): seq<Call>
  {
    if LabelPlanned(r, ctx) then [AddLabel(ctx.labels[r.status.value])] else []
  }

  function MemberCalls(r: Row, ctx: Context): seq<Call>
  {
    if MemberPlanned(r, ctx) then [AssignMember(ctx.members[r.pl.value])] else []
  }

  function FieldCalls(k: nat, r: Row, remote: Remote): seq<Call>
  {
    [GetCustomField(OrderVolume)] + if remote.hasOrderVolume(k) then [SetCustomField(r.umsatz)] else []
  }

  /** The calls after the card creation: the label, the member, the custom field. */
  function FollowUps(k: nat, r: Row, ctx: Context, remote: Remote): seq<Call>
  {
    LabelCalls(r, ctx) + MemberCalls(r, ctx) + FieldCalls(k, r, remote)
  }

  /** The calls the try-block of row `k` makes when none of them raises. */
  function PlannedCalls(k: nat, r: Row, ctx: Context, remote: Remote): seq<Call>
  {
    [CreateCall(r, ctx)] + FollowUps(k, r, ctx, remote)
  }

  /** The calls are made in order; the first that raises ends the try-block,
      so the calls after it are skipped and nothing made before it is undone. */
  function Attempt(k: nat, calls: seq<Call>, remote: Remote): (es: seq<Event>)
    ensures |es| <= |calls|
    ensures calls != [] ==> es != []
    ensures forall i :: 0 <= i < |es| ==> es[i] == Issued(k, calls[i], remote.accepts(k, calls[i]))
    ensures forall i :: 0 <= i < |es| - 1 ==> remote.accepts(k, calls[i])
    ensures |es| < |calls| ==> !remote.accepts(k, calls[|es| - 1])
  {
    if calls == [] then []
    else if !remote.accepts(k, calls[0]) then [Issued(k, calls[0], false)]
    else [Issued(k, calls[0], true)] + Attempt(k, calls[1..], remote)
  }

  /** The events of one row's try-block. */
  function RowEvents(k: nat, r: Row, ctx: Context, remote: Remote): seq<Event>
  {
    Attempt(k, PlannedCalls(k, r, ctx, remote), remote)
  }

  /** One block of events per row; block `i` is the try-block of row `k + i`. */
  function RowBlocks(rows: seq<Row>, k: nat, ctx: Context, remote: Remote): (bs: seq<seq<Event>>)
    ensures |bs| == |rows|
    ensures forall i :: 0 <= i < |rows| ==> bs[i] == RowEvents(k + i, rows[i], ctx, remote)
  {
    seq(|rows|, i requires 0 <= i < |rows| => RowEvents(k + i, rows[i], ctx, remote))
  }

  /** The blocks of the subsets `cs`, subset by subset; the first row is row `k`. */
  function SubsetBlocks(cs: seq<seq<Row>>, k: nat, ctx: Context, remote: Remote): (bss: seq<seq<seq<Event>>>)
    ensures |bss| == |cs|
  {
    if cs == [] then []
    else [RowBlocks(cs[0], k, ctx, remote)] + SubsetBlocks(cs[1..], k + |cs[0]|, ctx, remote)
  }

  /** The subsets' events one after another, with a pause after every subset
      but the last. */
  function Paused(bss: seq<seq<seq<Event>>>): seq<Event>
  {
    if bss == [] then []
    else Flatten(bss[0]) + (if |bss| > 1 then [Sleep] else []) + Paused(bss[1..])
  }

  /** The trace of the card loop over the subsets `cs`. */
  function SyncEvents(cs: seq<seq<Row>>, ctx: Context, remote: Remote): seq<Event>
  {
    Paused(SubsetBlocks(cs, 0, ctx, remote))
  }

  /** The nested loop over subsets and rows. */
  method ProcessSubsets(cs: seq<seq<Row>>, ctx: Context, remote: Remote) returns (trace: seq<Event>)
    ensures trace == SyncEvents(cs, ctx, remote)
  {
    trace := [];
    var k: nat := 0;
    var todo := cs;
    while todo != []
      invariant trace + Paused(SubsetBlocks(todo, k, ctx, remote)) == SyncEvents(cs, ctx, remote)
      decreases |todo|
    {
      var events := ProcessSubset(todo[0], k, ctx, remote);
      var pause: seq<Event> := if |todo| > 1 then [Sleep] else [];
      ghost var trace0, k0, todo0 := trace, k, todo;
      trace := trace + events + pause;
      k := k + |todo[0]|;
      todo := todo[1..];
      SubsetBlocksCons(todo0, k0, todo, k, ctx, remote);
      PausedStep(SyncEvents(cs, ctx, remote), trace0, SubsetBlocks(todo0, k0, ctx, remote), events, pause, trace);
    }
  }

  lemma SubsetBlocksCons(cs: seq<seq<Row>>, k: nat, cs': seq<seq<Row>>, k': nat, ctx: Context, remote: Remote)
    requires cs != [] && cs' == cs[1..] && k' == k + |cs[0]|
    ensures var bss := SubsetBlocks(cs, k, ctx, remote);
      bss[0] == RowBlocks(cs[0], k, ctx, remote) && bss[1..] == SubsetBlocks(cs', k', ctx, remote)
  {
  }

  /** One turn of the loop over subsets: the events of the first subset and
      the pause after it, then the remaining subsets. */
  lemma PausedStep(all: seq<Event>, trace: seq<Event>, bss: seq<seq<seq<Event>>>, events: seq<Event>, pause: seq<Event>, trace': seq<Event>)
    requires bss != [] && trace + Paused(bss) == all
    requires events == Flatten(bss[0]) && pause == (if |bss| > 1 then [Sleep] else [])
    requires trace' == trace + events + pause
    ensures trace' + Paused(bss[1..]) == all
  {
    var rest := Paused(bss[1..]);
    assert Paused(bss) == events + pause + rest;
    Assoc(trace, events + pause, rest);
    Assoc(trace, events, pause);
  }

  lemma Assoc<T>(a: seq<T>, b: seq<T>, c: seq<T>)
    ensures a + (b + c) == a + b + c
  {
    forall i | 0 <= i < |a| + |b| + |c| ensures (a + (b + c))[i] == (a + b + c)[i] {
      if i < |a| {
      } else if i < |a| + |b| {
        assert (a + (b + c))[i] == (b + c)[i - |a|];
      } else {
        assert (a + (b + c))[i] == (b + c)[i - |a|];
      }
    }
  }

  /** The inner loop over the rows of one subset, the first of which is row `k`. */
  method ProcessSubset(subset: seq<Row>, k: nat, ctx: Context, remote: Remote) returns (trace: seq<Event>)
    ensures trace == Flatten(RowBlocks(subset, k, ctx, remote))
  {
    ghost var bs := RowBlocks(subset, k, ctx, remote);
    trace := [];
    var i := 0;
    while i < |subset|
      invariant 0 <= i <= |subset|
      invariant trace == Flatten(bs[..i])
    {
      var events := RowEvents(k + i, subset[i], ctx, remote);
      FlattenSnoc(bs, i);
      trace := trace + events;
      i := i + 1;
    }
    assert bs[..i] == bs;
  }

  // ---------------------------------------------------------------------
  // Views of a trace

  function WithoutSleeps(t: seq<Event>): seq<Event>
  {
    if t == [] then [] else (if t[0].Sleep? then [] else [t[0]]) + WithoutSleeps(t[1..])
  }

  function CountSleeps(t: seq<Event>): nat
  {
    if t == [] then 0 else (if t[0].Sleep? then 1 else 0) + CountSleeps(t[1..])
  }

  /** The events of row `k`, in trace order. */
  function EventsOf(t: seq<Event>, k: nat): seq<Event>
  {
    if t == [] then [] else (if t[0].Issued? && t[0].row == k then [t[0]] else []) + EventsOf(t[1..], k)
  }

  /** Rows are handled one after another: no call for a row comes after a
      call for a later row. */
  ghost predicate Ordered(t: seq<Event>)
  {
    forall p, q :: 0 <= p < q < |t| && t[p].Issued? && t[q].Issued? ==> t[p].row <= t[q].row
  }

  /** Every call in `t` is for a row in `lo..hi - 1`. */
  ghost predicate RowsWithin(t: seq<Event>, lo: nat, hi: nat)
  {
    forall p :: 0 <= p < |t| && t[p].Issued? ==> lo <= t[p].row < hi
  }

  /** Every pause sits between the last call of one row and the card
      creation of the next row, that row starts a subset of 100, and the
      trace never ends with a pause. */
  ghost predicate PausesBetweenSubsets(t: seq<Event>)
  {
    forall p :: 0 <= p < |t| && t[p].Sleep? ==>
      && 0 < p < |t| - 1
      && t[p - 1].Issued? && t[p + 1].Issued?
      && t[p + 1].call.AddCard?
      && t[p + 1].row == t[p - 1].row + 1
      && t[p + 1].row % BatchSize == 0
  }

  lemma {:induction false} WithoutSleepsAppend(a: seq<Event>, b: seq<Event>)
    ensures WithoutSleeps(a + b) == WithoutSleeps(a) + WithoutSleeps(b)
  {
    if a == [] {
      assert a + b == b;
    } else {
      assert (a + b)[0] == a[0];
      assert (a + b)[1..] == a[1..] + b;
      WithoutSleepsAppend(a[1..], b);
    }
  }

  lemma {:induction false} CountSleepsAppend(a: seq<Event>, b: seq<Event>)
    ensures CountSleeps(a + b) == CountSleeps(a) + CountSleeps(b)
  {
    if a == [] {
      assert a + b == b;
    } else {
      assert (a + b)[0] == a[0];
      assert (a + b)[1..] == a[1..] + b;
      CountSleepsAppend(a[1..], b);
    }
  }

  lemma {:induction false} EventsOfAppend(a: seq<Event>, b: seq<Event>, k: nat)
    ensures EventsOf(a + b, k) == EventsOf(a, k) + EventsOf(b, k)
  {
    if a == [] {
      assert a + b == b;
    } else {
      assert (a + b)[0] == a[0];
      assert (a + b)[1..] == a[1..] + b;
      EventsOfAppend(a[1..], b, k);
    }
  }

  lemma {:induction false} EventsOfIn(t: seq<Event>, i: nat)
    ensures forall e :: e in EventsOf(t, i) ==> e in t
  {
    if t != [] {
      EventsOfIn(t[1..], i);
      assert forall e :: e in t[1..] ==> e in t;
    }
  }

  /** Pauses are not calls of any row. */
  lemma {:induction false} EventsOfIgnoresSleeps(t: seq<Event>, i: nat)
    ensures EventsOf(t, i) == EventsOf(WithoutSleeps(t), i)
  {
    if t != [] {
      EventsOfIgnoresSleeps(t[1..], i);
      var head: seq<Event> := if t[0].Sleep? then [] else [t[0]];
      EventsOfAppend(head, WithoutSleeps(t[1..]), i);
      assert EventsOf(head, i) == (if t[0].Issued? && t[0].row == i then [t[0]] else []);
    }
  }

  // ---------------------------------------------------------------------
  // One row

  /** A call the try-block of row `k` may make after creating the card: the
      label of its status, the member of its `PL`, reading the "Order
      Volume" field, and setting it to Umsatz when the card has that field. */
  ghost predicate FollowUp(c: Call, k: nat, r: Row, ctx: Context, remote: Remote)
  {
    match c
    case AddCard(_, _) => false
    case AddLabel(l) => LabelPlanned(r, ctx) && l == ctx.labels[r.status.value]
    case AssignMember(m) => MemberPlanned(r, ctx) && m == ctx.members[r.pl.value]
    case GetCustomField(f) => f == OrderVolume
    case SetCustomField(v) => remote.hasOrderVolume(k) && v == r.umsatz
  }

  /** Every call planned after the card creation is a follow-up of the row,
      and the label, when there is one, comes first. */
  lemma FollowUpsPlanned(k: nat, r: Row, ctx: Context, remote: Remote)
    ensures forall c :: c in FollowUps(k, r, ctx, remote) ==> FollowUp(c, k, r, ctx, remote)
    ensures LabelPlanned(r, ctx) ==> FollowUps(k, r, ctx, remote)[0] == AddLabel(ctx.labels[r.status.value])
  {
    var l, m, f := LabelCalls(r, ctx), MemberCalls(r, ctx), FieldCalls(k, r, remote);
    assert forall c :: c in l ==> FollowUp(c, k, r, ctx, remote);
    assert forall c :: c in m ==> FollowUp(c, k, r, ctx, remote);
    assert forall c :: c in f ==> FollowUp(c, k, r, ctx, remote);
    assert FollowUps(k, r, ctx, remote) == l + (m + f);
  }

  /** The try-block of row `k` plans the card creation first and then
      exactly: one label call iff the row's Status names a board label, one
      member call iff its PL names a board member, the lookup of "Order
      Volume", and the assignment of Umsatz iff the card has that field, in
      that order (`L` and `M` count the label and the member call). */
  lemma PlannedCallsShape(k: nat, r: Row, ctx: Context, remote: Remote)
    ensures var calls := PlannedCalls(k, r, ctx, remote);
      && calls[0] == CreateCall(r, ctx)
      && (LabelPlanned(r, ctx) <==> exists c :: c in calls && c.AddLabel?)
      && (MemberPlanned(r, ctx) <==> exists c :: c in calls && c.AssignMember?)
      && GetCustomField(OrderVolume) in calls
      && (remote.hasOrderVolume(k) <==> exists c :: c in calls && c.SetCustomField?)
      && calls[|calls| - 1] == (if remote.hasOrderVolume(k) then SetCustomField(r.umsatz) else GetCustomField(OrderVolume))
      && |calls| == 2 + (if LabelPlanned(r, ctx) then 1 else 0) + (if MemberPlanned(r, ctx) then 1 else 0)
                      + (if remote.hasOrderVolume(k) then 1 else 0)
    ensures var calls, L, M := PlannedCalls(k, r, ctx, remote), (if LabelPlanned(r, ctx) then 1 else 0), (if MemberPlanned(r, ctx) then 1 else 0);
      && (LabelPlanned(r, ctx) ==> calls[1] == AddLabel(ctx.labels[r.status.value]))
      && (MemberPlanned(r, ctx) ==> calls[1 + L] == AssignMember(ctx.members[r.pl.value]))
      && calls[1 + L + M] == GetCustomField(OrderVolume)
      && (remote.hasOrderVolume(k) ==> calls[2 + L + M] == SetCustomField(r.umsatz))
  {
    PlannedCallKinds(k, r, ctx, remote);
    PlannedCallPositions(k, r, ctx, remote);
  }

  /** Which kinds of call the try-block plans, and which comes last. */
  lemma PlannedCallKinds(k: nat, r: Row, ctx: Context, remote: Remote)
    ensures var calls := PlannedCalls(k, r, ctx, remote);
      && (LabelPlanned(r, ctx) <==> exists c :: c in calls && c.AddLabel?)
      && (MemberPlanned(r, ctx) <==> exists c :: c in calls && c.AssignMember?)
      && GetCustomField(OrderVolume) in calls
      && (remote.hasOrderVolume(k) <==> exists c :: c in calls && c.SetCustomField?)
      && calls[|calls| - 1] == (if remote.hasOrderVolume(k) then SetCustomField(r.umsatz) else GetCustomField(OrderVolume))
  {
    var l, m, f := LabelCalls(r, ctx), MemberCalls(r, ctx), FieldCalls(k, r, remote);
    var calls := PlannedCalls(k, r, ctx, remote);
    assert calls == [CreateCall(r, ctx)] + l + m + f;
    assert f[0] in calls;
    assert LabelPlanned(r, ctx) ==> l[0] in calls;
    assert MemberPlanned(r, ctx) ==> m[0] in calls;
    assert remote.hasOrderVolume(k) ==> f[1] in calls;
  }

  /** Where each planned call stands. */
  lemma PlannedCallPositions(k: nat, r: Row, ctx: Context, remote: Remote)
    ensures var calls := PlannedCalls(k, r, ctx, remote);
      && calls[0] == CreateCall(r, ctx)
      && |calls| == 2 + (if LabelPlanned(r, ctx) then 1 else 0) + (if MemberPlanned(r, ctx) then 1 else 0)
                      + (if remote.hasOrderVolume(k) then 1 else 0)
    ensures var calls, L, M := PlannedCalls(k, r, ctx, remote), (if LabelPlanned(r, ctx) then 1 else 0), (if MemberPlanned(r, ctx) then 1 else 0);
      && (LabelPlanned(r, ctx) ==> calls[1] == AddLabel(ctx.labels[r.status.value]))
      && (MemberPlanned(r, ctx) ==> calls[1 + L] == AssignMember(ctx.members[r.pl.value]))
      && calls[1 + L + M] == GetCustomField(OrderVolume)
      && (remote.hasOrderVolume(k) ==> calls[2 + L + M] == SetCustomField(r.umsatz))
  {
    var l, m, f := LabelCalls(r, ctx), MemberCalls(r, ctx), FieldCalls(k, r, remote);
    var calls := PlannedCalls(k, r, ctx, remote);
    assert calls == [CreateCall(r, ctx)] + l + m + f;
    assert calls[1 + |l| + |m|] == f[0];
  }

  /** The events of row `k` form one block: calls for row `k` only, starting
      with its card creation. */
  ghost predicate Block(b: seq<Event>, k: nat)
  {
    && b != []
    && b[0].Issued? && b[0].call.AddCard?
    && forall p :: 0 <= p < |b| ==> b[p].Issued? && b[p].row == k
  }

  /** A row's events: the card creation comes first, after it only follow-ups
      of the row; every call before the last one made succeeded; and once the
      card exists, the label (when the status names one) is added next. */
  lemma RowSteps(k: nat, r: Row, ctx: Context, remote: Remote)
    ensures var es := RowEvents(k, r, ctx, remote);
      && Block(es, k)
      && es[0] == Issued(k, CreateCall(r, ctx), remote.accepts(k, CreateCall(r, ctx)))
      && (forall p :: 0 <= p < |es| - 1 ==> es[p].ok)
      && (forall p :: 0 < p < |es| ==> FollowUp(es[p].call, k, r, ctx, remote))
      && (es[0].ok && LabelPlanned(r, ctx) ==>
            |es| > 1 && es[1].call == AddLabel(ctx.labels[r.status.value]))
  {
    var calls, more := PlannedCalls(k, r, ctx, remote), FollowUps(k, r, ctx, remote);
    var es := RowEvents(k, r, ctx, remote);
    FollowUpsPlanned(k, r, ctx, remote);
    forall p | 0 < p < |es| ensures FollowUp(es[p].call, k, r, ctx, remote) {
      assert es[p].call == calls[p] == more[p - 1];
      assert more[p - 1] in more;
    }
    if es[0].ok && LabelPlanned(r, ctx) {
      assert |calls| > 1;
      assert calls[1] == more[0];
    }
  }

  /** The three outcomes of a row's try-block. */
  datatype Outcome = NotCreated | PartiallyApplied | FullyApplied

  function RowOutcome(k: nat, r: Row, ctx: Context, remote: Remote): Outcome
  {
    var es := RowEvents(k, r, ctx, remote);
    if !es[0].ok then NotCreated
    else if |es| == |PlannedCalls(k, r, ctx, remote)| && es[|es| - 1].ok then FullyApplied
    else PartiallyApplied
  }

  /** Which of the three outcomes a row has is decided by the oracle alone:
      "not created" exactly when the card creation fails, "fully applied"
      exactly when every planned call succeeds. */
  lemma {:induction false} OutcomeCases(k: nat, r: Row, ctx: Context, remote: Remote)
    ensures RowOutcome(k, r, ctx, remote) == NotCreated
      <==> !remote.accepts(k, CreateCall(r, ctx))
    ensures RowOutcome(k, r, ctx, remote) == FullyApplied
      <==> forall i :: 0 <= i < |PlannedCalls(k, r, ctx, remote)| ==> remote.accepts(k, PlannedCalls(k, r, ctx, remote)[i])
  {
    var calls := PlannedCalls(k, r, ctx, remote);
    var es := RowEvents(k, r, ctx, remote);
    assert calls[0] == CreateCall(r, ctx);
    if RowOutcome(k, r, ctx, remote) == FullyApplied {
      forall i | 0 <= i < |calls| ensures remote.accepts(k, calls[i]) {
        assert es[i] == Issued(k, calls[i], remote.accepts(k, calls[i]));
      }
    }
    if forall i :: 0 <= i < |calls| ==> remote.accepts(k, calls[i]) {
      assert |es| == |calls|;
      assert es[|es| - 1].ok;
    }
  }

  // ---------------------------------------------------------------------
  // Blocks of rows

  ghost predicate Blocks(bs: seq<seq<Event>>, k: nat)
  {
    forall i :: 0 <= i < |bs| ==> Block(bs[i], k + i)
  }

  lemma RowBlocksAreBlocks(rows: seq<Row>, k: nat, ctx: Context, remote: Remote)
    ensures Blocks(RowBlocks(rows, k, ctx, remote), k)
  {
    var bs := RowBlocks(rows, k, ctx, remote);
    forall i | 0 <= i < |bs| ensures Block(bs[i], k + i) {
      RowSteps(k + i, rows[i], ctx, remote);
    }
  }

  lemma BlocksSplit(a: seq<seq<Event>>, b: seq<seq<Event>>, k: nat)
    requires Blocks(a + b, k)
    ensures Blocks(a, k) && Blocks(b, k + |a|)
  {
    forall i | 0 <= i < |a| ensures Block(a[i], k + i) {
      assert a[i] == (a + b)[i];
    }
    forall i | 0 <= i < |b| ensures Block(b[i], k + |a| + i) {
      assert b[i] == (a + b)[|a| + i];
    }
  }

  lemma {:induction false} RowBlocksAppend(x: seq<Row>, y: seq<Row>, k: nat, ctx: Context, remote: Remote)
    ensures RowBlocks(x + y, k, ctx, remote) == RowBlocks(x, k, ctx, remote) + RowBlocks(y, k + |x|, ctx, remote)
  {
    var l, a, b := RowBlocks(x + y, k, ctx, remote), RowBlocks(x, k, ctx, remote), RowBlocks(y, k + |x|, ctx, remote);
    forall i | 0 <= i < |l| ensures l[i] == (a + b)[i] {
      if i < |x| {
        assert (x + y)[i] == x[i];
      } else {
        assert (x + y)[i] == y[i - |x|];
      }
    }
  }

  /** The subsets' blocks, put together, are the blocks of all their rows. */
  lemma {:induction false} SubsetBlocksFlatten(cs: seq<seq<Row>>, k: nat, ctx: Context, remote: Remote)
    ensures Flatten(SubsetBlocks(cs, k, ctx, remote)) == RowBlocks(Flatten(cs), k, ctx, remote)
  {
    if cs != [] {
      var bss, rest := SubsetBlocks(cs, k, ctx, remote), SubsetBlocks(cs[1..], k + |cs[0]|, ctx, remote);
      assert bss[0] == RowBlocks(cs[0], k, ctx, remote) && bss[1..] == rest;
      assert Flatten(bss) == bss[0] + Flatten(rest);
      SubsetBlocksFlatten(cs[1..], k + |cs[0]|, ctx, remote);
      RowBlocksAppend(cs[0], Flatten(cs[1..]), k, ctx, remote);
    }
  }

  lemma {:induction false} SubsetBlocksSizes(cs: seq<seq<Row>>, k: nat, ctx: Context, remote: Remote)
    ensures forall j :: 0 <= j < |cs| ==> |SubsetBlocks(cs, k, ctx, remote)[j]| == |cs[j]|
  {
    if cs != [] {
      SubsetBlocksSizes(cs[1..], k + |cs[0]|, ctx, remote);
      var bss := SubsetBlocks(cs, k, ctx, remote);
      assert forall j :: 1 <= j < |cs| ==> bss[j] == SubsetBlocks(cs[1..], k + |cs[0]|, ctx, remote)[j - 1];
    }
  }

  /** The blocks of rows put together: calls for the rows `k..` only, in
      row order, with no pauses. */
  lemma {:induction false} FlatShape(bs: seq<seq<Event>>, k: nat)
    requires Blocks(bs, k)
    ensures var t := Flatten(bs);
      && RowsWithin(t, k, k + |bs|) && Ordered(t)
      && (forall p :: 0 <= p < |t| ==> t[p].Issued?)
      && (bs != [] ==> t != [] && t[0] == bs[0][0] && t[|t| - 1].row == k + |bs| - 1)
  {
    if bs != [] {
      assert bs == [bs[0]] + bs[1..];
      BlocksSplit([bs[0]], bs[1..], k);
      FlatShape(bs[1..], k + 1);
      OrderedAppend(bs[0], Flatten(bs[1..]), k);
      var t := Flatten(bs);
      assert t == bs[0] + Flatten(bs[1..]);
      forall p | 0 <= p < |t| ensures t[p].Issued? && k <= t[p].row < k + |bs| {
        if p >= |bs[0]| {
          assert t[p] == Flatten(bs[1..])[p - |bs[0]|];
        }
      }
    }
  }

  lemma OrderedAppend(a: seq<Event>, b: seq<Event>, m: nat)
    requires Ordered(a) && Ordered(b)
    requires forall p :: 0 <= p < |a| && a[p].Issued? ==> a[p].row <= m
    requires forall q :: 0 <= q < |b| && b[q].Issued? ==> m <= b[q].row
    ensures Ordered(a + b)
  {
    var t := a + b;
    forall p, q | 0 <= p < q < |t| && t[p].Issued? && t[q].Issued? ensures t[p].row <= t[q].row {
      if q < |a| {
        assert t[p] == a[p] && t[q] == a[q];
      } else if p >= |a| {
        assert t[p] == b[p - |a|] && t[q] == b[q - |a|];
      } else {
        assert t[p] == a[p] && t[q] == b[q - |a|];
      }
    }
  }

  lemma {:induction false} FlatViews(bs: seq<seq<Event>>, k: nat)
    requires Blocks(bs, k)
    ensures WithoutSleeps(Flatten(bs)) == Flatten(bs)
    ensures CountSleeps(Flatten(bs)) == 0
  {
    if bs != [] {
      assert bs == [bs[0]] + bs[1..];
      BlocksSplit([bs[0]], bs[1..], k);
      OneRowViews(bs[0], k, k);
      FlatViews(bs[1..], k + 1);
      WithoutSleepsAppend(bs[0], Flatten(bs[1..]));
      CountSleepsAppend(bs[0], Flatten(bs[1..]));
    }
  }

  lemma {:induction false} OneRowViews(b: seq<Event>, j: nat, k: nat)
    requires forall p :: 0 <= p < |b| ==> b[p].Issued? && b[p].row == j
    ensures WithoutSleeps(b) == b
    ensures CountSleeps(b) == 0
    ensures EventsOf(b, k) == if j == k then b else []
  {
    if b != [] {
      OneRowViews(b[1..], j, k);
    }
  }

  /** Row `i`'s events are its own block, whatever the other blocks are. */
  lemma {:induction false} FlatEventsOf(bs: seq<seq<Event>>, k: nat, i: nat)
    requires Blocks(bs, k)
    ensures EventsOf(Flatten(bs), i) == if k <= i < k + |bs| then bs[i - k] else []
  {
    if bs != [] {
      assert bs == [bs[0]] + bs[1..];
      BlocksSplit([bs[0]], bs[1..], k);
      OneRowViews(bs[0], k, i);
      FlatEventsOf(bs[1..], k + 1, i);
      EventsOfAppend(bs[0], Flatten(bs[1..]), i);
    }
  }

  // ---------------------------------------------------------------------
  // Subsets with pauses

  lemma PausedSplit(bss: seq<seq<seq<Event>>>, k: nat)
    requires bss != [] && Blocks(Flatten(bss), k)
    ensures Blocks(bss[0], k) && Blocks(Flatten(bss[1..]), k + |bss[0]|)
    ensures |Flatten(bss)| == |bss[0]| + |Flatten(bss[1..])|
  {
    assert Flatten(bss) == bss[0] + Flatten(bss[1..]);
    BlocksSplit(bss[0], Flatten(bss[1..]), k);
  }

  /** Without its pauses, the trace is all blocks in order. */
  lemma {:induction false} PausedWithoutSleeps(bss: seq<seq<seq<Event>>>, k: nat)
    requires Blocks(Flatten(bss), k)
    ensures WithoutSleeps(Paused(bss)) == Flatten(Flatten(bss))
  {
    if bss != [] {
      PausedSplit(bss, k);
      PausedWithoutSleeps(bss[1..], k + |bss[0]|);
      FlatViews(bss[0], k);
      PauseDropped(Flatten(bss[0]), |bss| > 1, Paused(bss[1..]));
      FlattenAppend(bss[0], Flatten(bss[1..]));
      assert Flatten(bss) == bss[0] + Flatten(bss[1..]);
    }
  }

  lemma PauseDropped(a: seq<Event>, pause: bool, b: seq<Event>)
    requires WithoutSleeps(a) == a
    ensures WithoutSleeps(a + (if pause then [Sleep] else []) + b) == a + WithoutSleeps(b)
  {
    var s: seq<Event> := if pause then [Sleep] else [];
    WithoutSleepsAppend(a + s, b);
    WithoutSleepsAppend(a, s);
    assert WithoutSleeps(s) == [];
    assert WithoutSleeps(a + s) == a + [];
    assert a + [] == a;
  }

  /** There is one pause fewer than there are subsets. */
  lemma {:induction false} PausedSleepCount(bss: seq<seq<seq<Event>>>, k: nat)
    requires Blocks(Flatten(bss), k)
    ensures CountSleeps(Paused(bss)) == if bss == [] then 0 else |bss| - 1
  {
    if bss != [] {
      PausedSplit(bss, k);
      PausedSleepCount(bss[1..], k + |bss[0]|);
      FlatViews(bss[0], k);
      var a, s, b := Flatten(bss[0]), (if |bss| > 1 then [Sleep] else []), Paused(bss[1..]);
      CountSleepsAppend(a + s, b);
      CountSleepsAppend(a, s);
      assert CountSleeps(s) == if |bss| > 1 then 1 else 0;
    }
  }

  /** The trace handles rows one after another, each call for one of its rows. */
  lemma {:induction false} PausedOrdered(bss: seq<seq<seq<Event>>>, k: nat)
    requires Blocks(Flatten(bss), k)
    ensures Ordered(Paused(bss)) && RowsWithin(Paused(bss), k, k + |Flatten(bss)|)
  {
    if bss != [] {
      PausedSplit(bss, k);
      PausedOrdered(bss[1..], k + |bss[0]|);
      FlatShape(bss[0], k);
      OrderedJoin(Flatten(bss[0]), |bss| > 1, Paused(bss[1..]), k, k + |bss[0]|, k + |Flatten(bss)|);
    }
  }

  lemma OrderedJoin(a: seq<Event>, pause: bool, b: seq<Event>, lo: nat, mid: nat, hi: nat)
    requires Ordered(a) && Ordered(b)
    requires lo <= mid <= hi
    requires RowsWithin(a, lo, mid) && RowsWithin(b, mid, hi)
    ensures var t := a + (if pause then [Sleep] else []) + b;
      Ordered(t) && RowsWithin(t, lo, hi)
  {
    var s: seq<Event> := if pause then [Sleep] else [];
    assert Ordered(s);
    OrderedAppend(a, s, mid);
    OrderedAppend(a + s, b, mid);
    var t := a + s + b;
    forall p | 0 <= p < |t| && t[p].Issued? ensures lo <= t[p].row < hi {
      if p >= |a + s| {
        assert t[p] == b[p - |a + s|];
      } else if p < |a| {
        assert t[p] == a[p];
      }
    }
  }

  /** Pauses fall between subsets of 100 rows, never at the end. */
  lemma {:induction false} PausedPlacement(bss: seq<seq<seq<Event>>>, k: nat)
    requires Blocks(Flatten(bss), k)
    requires forall j :: 0 <= j < |bss| ==> bss[j] != []
    requires forall j :: 0 <= j < |bss| - 1 ==> |bss[j]| == BatchSize
    requires k % BatchSize == 0
    ensures PausesBetweenSubsets(Paused(bss))
  {
    if bss != [] {
      PausedSplit(bss, k);
      FlatShape(bss[0], k);
      var b := Paused(bss[1..]);
      if |bss| > 1 {
        PausedPlacement(bss[1..], k + |bss[0]|);
        PausedStartsWithCard(bss[1..], k + |bss[0]|);
      } else {
        assert b == [];
      }
      PauseJoin(Flatten(bss[0]), |bss| > 1, b, k + |bss[0]|);
    }
  }

  lemma PausedStartsWithCard(bss: seq<seq<seq<Event>>>, k: nat)
    requires Blocks(Flatten(bss), k)
    requires bss != [] && bss[0] != []
    ensures var t := Paused(bss);
      t != [] && t[0].Issued? && t[0].row == k && t[0].call.AddCard?
  {
    PausedSplit(bss, k);
    FlatShape(bss[0], k);
    var a := Flatten(bss[0]);
    var t := Paused(bss);
    assert t == a + ((if |bss| > 1 then [Sleep] else []) + Paused(bss[1..]));
    assert t[0] == a[0];
  }

  lemma PauseJoin(a: seq<Event>, pause: bool, b: seq<Event>, next: nat)
    requires a != [] && forall p :: 0 <= p < |a| ==> a[p].Issued?
    requires a[|a| - 1].row + 1 == next
    requires pause ==> next % BatchSize == 0 && b != [] && b[0].Issued? && b[0].call.AddCard? && b[0].row == next
    requires !pause ==> b == []
    requires PausesBetweenSubsets(b)
    ensures PausesBetweenSubsets(a + (if pause then [Sleep] else []) + b)
  {
    var s: seq<Event> := if pause then [Sleep] else [];
    var t := a + s + b;
    forall p | 0 <= p < |t| && t[p].Sleep?
      ensures 0 < p < |t| - 1 && t[p - 1].Issued? && t[p + 1].Issued? && t[p + 1].call.AddCard?
        && t[p + 1].row == t[p - 1].row + 1 && t[p + 1].row % BatchSize == 0
    {
      if p >= |a + s| {
        var q := p - |a + s|;
        assert t[p] == b[q];
        assert t[p - 1] == b[q - 1] && t[p + 1] == b[q + 1];
      } else if p >= |a| {
        assert t[p - 1] == a[|a| - 1] && t[p + 1] == b[0];
      }
    }
  }

  /** In the trace, the events of row `row`, the `j`-th from `k`, are its block. */
  lemma PausedRow(bss: seq<seq<seq<Event>>>, k: nat, j: nat, row: nat)
    requires Blocks(Flatten(bss), k)
    requires j < |Flatten(bss)| && row == k + j
    ensures EventsOf(Paused(bss), row) == Flatten(bss)[j]
  {
    var t, bs := Paused(bss), Flatten(bss);
    PausedWithoutSleeps(bss, k);
    FlatViews(bs, k);
    EventsOfIgnoresSleeps(t, row);
    FlatEventsOf(bs, k, row);
  }

  /** A trace in which row `k` has its events is one that attempted its card. */
  lemma CardAttempted(t: seq<Event>, k: nat, r: Row, ctx: Context, remote: Remote)
    requires EventsOf(t, k) == RowEvents(k, r, ctx, remote)
    ensures Issued(k, CreateCall(r, ctx), remote.accepts(k, CreateCall(r, ctx))) in t
  {
    RowSteps(k, r, ctx, remote);
    EventsOfIn(t, k);
    assert EventsOf(t, k)[0] in EventsOf(t, k);
  }

  // ---------------------------------------------------------------------
  // The card loop over subsets of rows

  lemma SubsetShape(cs: seq<seq<Row>>, rows: seq<Row>, ctx: Context, remote: Remote)
    requires Flatten(cs) == rows
    ensures var bss := SubsetBlocks(cs, 0, ctx, remote);
      && Flatten(bss) == RowBlocks(rows, 0, ctx, remote)
      && Blocks(Flatten(bss), 0)
      && (forall j :: 0 <= j < |cs| ==> |bss[j]| == |cs[j]|)
  {
    SubsetBlocksFlatten(cs, 0, ctx, remote);
    SubsetBlocksSizes(cs, 0, ctx, remote);
    RowBlocksAreBlocks(rows, 0, ctx, remote);
  }

  /** What the card loop does with each row of `rows`, split into the
      subsets `cs`, for any answers of the remote board: without its pauses
      the trace is the rows' try-blocks in order; the events of every row
      are exactly its own try-block (a failure in one row never affects
      another), and its card creation is attempted. */
  lemma SyncRows(cs: seq<seq<Row>>, rows: seq<Row>, ctx: Context, remote: Remote)
    requires Flatten(cs) == rows
    ensures var t := SyncEvents(cs, ctx, remote);
      && WithoutSleeps(t) == Flatten(RowBlocks(rows, 0, ctx, remote))
      && (forall i :: 0 <= i < |rows| ==> EventsOf(t, i) == RowEvents(i, rows[i], ctx, remote))
      && (forall i :: 0 <= i < |rows| ==>
            Issued(i, CreateCall(rows[i], ctx), remote.accepts(i, CreateCall(rows[i], ctx))) in t)
  {
    var bss := SubsetBlocks(cs, 0, ctx, remote);
    var bs := RowBlocks(rows, 0, ctx, remote);
    SubsetShape(cs, rows, ctx, remote);
    PausedWithoutSleeps(bss, 0);
    var t := SyncEvents(cs, ctx, remote);
    forall i | 0 <= i < |rows| ensures EventsOf(t, i) == RowEvents(i, rows[i], ctx, remote) {
      PausedRow(bss, 0, i, i);
    }
    forall i | 0 <= i < |rows|
      ensures Issued(i, CreateCall(rows[i], ctx), remote.accepts(i, CreateCall(rows[i], ctx))) in t
    {
      CardAttempted(t, i, rows[i], ctx, remote);
    }
  }

  /** How the card loop orders its work, when `cs` are the subsets of 100
      rows that `Chunks` makes: rows are handled one after another, each
      call for one of the rows; there is one pause fewer than there are
      subsets, each between two subsets of 100 rows and none at the end. */
  lemma SyncPauses(cs: seq<seq<Row>>, rows: seq<Row>, ctx: Context, remote: Remote)
    requires Flatten(cs) == rows
    requires forall j :: 0 <= j < |cs| ==> cs[j] != []
    requires forall j :: 0 <= j < |cs| - 1 ==> |cs[j]| == BatchSize
    ensures var t := SyncEvents(cs, ctx, remote);
      && Ordered(t)
      && RowsWithin(t, 0, |rows|)
      && CountSleeps(t) == (if cs == [] then 0 else |cs| - 1)
      && PausesBetweenSubsets(t)
  {
    var bss := SubsetBlocks(cs, 0, ctx, remote);
    SubsetShape(cs, rows, ctx, remote);
    PausedOrdered(bss, 0);
    PausedSleepCount(bss, 0);
    PausedPlacement(bss, 0);
  }
}
