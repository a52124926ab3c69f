/** Remote reference data (boards, their lists, members and labels) and the
    lookups the script performs on it: a first-match scan by exact name for
    the board and the list, and the name-keyed dictionaries of members and
    labels. The remote collections are given as values, as one call to the
    board API returns them. */
module Resolve {

  import opened Wrappers

  datatype Label = Label(id: string, name: string, color: string)

  datatype Member = Member(id: string, fullName: string)

  datatype BoardList = BoardList(id: string, name: string, boardId: string)

  /** A board together with the collections the API returns for it. */
  datatype Board = Board(
    id: string,
    name: string,
    lists: seq<BoardList>,
    members: seq<Member>,
    labels: seq<Label>)

  function BoardName(b: Board): string { b.name }

  function ListName(l: BoardList): string { l.name }

  /** The first element of `xs` whose name is exactly `wanted`, if any. */
  function FirstNamed<T>(xs: seq<T>, nameOf: T -> string, wanted: string): (r: Option<T>)
    ensures r.None? <==> forall j :: 0 <= j < |xs| ==> nameOf(xs[j]) != wanted
    ensures r.Some? ==>
      exists i :: 0 <= i < |xs| && xs[i] == r.value && nameOf(xs[i]) == wanted &&
        forall j :: 0 <= j < i ==> nameOf(xs[j]) != wanted
  {
    if xs == [] then None
    else if nameOf(xs[0]) == wanted then Some(xs[0])
    else
      var r := FirstNamed(xs[1..], nameOf, wanted);
      assert forall j :: 1 <= j < |xs| ==> xs[j] == xs[1..][j - 1];
      r
  }

  /** The scan loop with `break` that the script runs over the boards and
      over the board's lists. */
  method FindByName<T>(xs: seq<T>, nameOf: T -> string, wanted: string) returns (found: Option<T>)
    ensures found == FirstNamed(xs, nameOf, wanted)
  {
    found := None;
    var i := 0;
    while i < |xs|
      invariant 0 <= i <= |xs|
      invariant FirstNamed(xs, nameOf, wanted) == FirstNamed(xs[i..], nameOf, wanted)
    {
      if nameOf(xs[i]) == wanted {
        found := Some(xs[i]);
        break;
      }
      assert xs[i..][1..] == xs[i + 1..];
      i := i + 1;
    }
  }

  /** The dictionary comprehension `{key(x): val(x) for x in xs}`: a later
      element with the same key overwrites an earlier one. */
  function Index<T, V>(xs: seq<T>, key: T -> string, val: T -> V): (m: map<string, V>)
    ensures forall k :: k in m <==> exists i :: 0 <= i < |xs| && key(xs[i]) == k
    decreases |xs|
  {
    if xs == [] then map[]
    else
      var init := xs[..|xs| - 1];
      var m := Index(init, key, val);
      assert forall i :: 0 <= i < |init| ==> init[i] == xs[i];
      m[key(xs[|xs| - 1]) := val(xs[|xs| - 1])]
  }

  /** The value stored under an element's key is that of the element itself
      when no later element has the same key. */
  lemma {:induction false} IndexLastWins<T, V>(xs: seq<T>, key: T -> string, val: T -> V, i: nat)
    requires i < |xs|
    requires forall j :: i < j < |xs| ==> key(xs[j]) != key(xs[i])
    ensures key(xs[i]) in Index(xs, key, val)
    ensures Index(xs, key, val)[key(xs[i])] == val(xs[i])
  {
    if i < |xs| - 1 {
      var init := xs[..|xs| - 1];
      assert forall j :: 0 <= j < |init| ==> init[j] == xs[j];
      IndexLastWins(init, key, val, i);
    }
  }

  function MemberKey(m: Member): string { m.fullName }

  function MemberId(m: Member): string { m.id }

  function LabelKey(l: Label): string { l.name }

  function LabelItself(l: Label): Label { l }

  /** `member_dict`: full name to member id. */
  function MemberIndex(b: Board): (m: map<string, string>)
    ensures forall n :: n in m <==> exists i :: 0 <= i < |b.members| && b.members[i].fullName == n
  {
    Index(b.members, MemberKey, MemberId)
  }

  /** `label_dict`: label name to label. */
  function LabelIndex(b: Board): (m: map<string, Label>)
    ensures forall n :: n in m <==> exists i :: 0 <= i < |b.labels| && b.labels[i].name == n
  {
    Index(b.labels, LabelKey, LabelItself)
  }

  /** The label stored under a name is a label of the board carrying that name. */
  lemma {:induction false} LabelIndexNamesMatch(labels: seq<Label>, n: string)
    requires n in Index(labels, LabelKey, LabelItself)
    ensures Index(labels, LabelKey, LabelItself)[n].name == n
    ensures Index(labels, LabelKey, LabelItself)[n] in labels
    decreases |labels|
  {
    var last := labels[|labels| - 1];
    var init := labels[..|labels| - 1];
    assert labels == init + [last];
    if n != last.name {
      LabelIndexNamesMatch(init, n);
    }
  }
}
