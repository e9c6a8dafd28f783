/**
  Printing an activity log with bursts of repeated or growing messages collapsed into one line.
*/
module ActivityCollapse {
  import opened Wrappers

  // The fields two activities must share: kind, tool, phase, command, path, url, error, detail.
  datatype Subject = Subject(kind: string, tool: string, phase: string, command: string,
                             path: string, url: string, error: string, detail: string)

  datatype Activity = Activity(subject: Subject, message: string)

  // A log message; one that is not an activity has none.
  datatype Message = Message(id: string, activity: Option<Activity>)

  datatype Line = Line(message: Message, similar: nat)

  predicate IsPrefix(a: string, b: string) {
    a <= b
  }

  predicate CanCollapse(a: Activity, b: Activity) {
    a.subject == b.subject
    && (a.message == b.message || IsPrefix(a.message, b.message) || IsPrefix(b.message, a.message))
  }

  // ---------------------------------------------------------------- the groups

  // Consecutive messages and the one that is printed for them.
  datatype Group = Group(members: seq<Message>, shown: Message)

  predicate Joins(g: Group, m: Message) {
    g.shown.activity.Some? && m.activity.Some? && CanCollapse(g.shown.activity.value, m.activity.value)
  }

  function Joined(g: Group, m: Message): Group
    requires Joins(g, m)
  {
    Group(g.members + [m], if |m.activity.value.message| > |g.shown.activity.value.message| then m else g.shown)
  }

  // The last group takes the next message or a new one starts.
  function Extend(groups: seq<Group>, m: Message): (r: seq<Group>)
    ensures r != []
  {
    if groups != [] && Joins(groups[|groups| - 1], m) then
      groups[..|groups| - 1] + [Joined(groups[|groups| - 1], m)]
    else groups + [Group([m], m)]
  }

  function GroupsFrom(groups: seq<Group>, messages: seq<Message>): seq<Group>
    decreases |messages|
  {
    if messages == [] then groups else GroupsFrom(Extend(groups, messages[0]), messages[1..])
  }

  function Groups(messages: seq<Message>): seq<Group> {
    GroupsFrom([], messages)
  }

  function Flatten(groups: seq<Group>): seq<Message> {
    if groups == [] then [] else Flatten(groups[..|groups| - 1]) + groups[|groups| - 1].members
  }

  function LineOf(g: Group): Line {
    Line(g.shown, if g.members == [] then 0 else |g.members| - 1)
  }

  function Lines(groups: seq<Group>): seq<Line> {
    seq(|groups|, i requires 0 <= i < |groups| => LineOf(groups[i]))
  }

  // Every member says a part of what the shown message says, about the same thing; the shown one
  // is the first of the longest.
  predicate GroupOk(g: Group) {
    && g.members != []
    && (g.shown.activity.None? ==> g.members == [g.shown])
    && (g.shown.activity.Some? ==>
          forall m | m in g.members ::
            && m.activity.Some? && m.activity.value.subject == g.shown.activity.value.subject
            && IsPrefix(m.activity.value.message, g.shown.activity.value.message))
    && (exists i | 0 <= i < |g.members| ::
          && g.members[i] == g.shown
          && forall k | 0 <= k < i :: g.members[k].activity.Some?
                                      && |g.members[k].activity.value.message| < |g.shown.activity.value.message|)
  }

  lemma JoinedOk(g: Group, m: Message)
    requires GroupOk(g) && Joins(g, m)
    ensures GroupOk(Joined(g, m))
  {
    var after := Joined(g, m);
    if after.shown == m && |m.activity.value.message| > |g.shown.activity.value.message| {
      assert after.members[|g.members|] == m;
      forall k | 0 <= k < |g.members|
        ensures after.members[k].activity.Some?
                && |after.members[k].activity.value.message| < |m.activity.value.message|
      {
        assert g.members[k] in g.members;
      }
    } else {
      var i :| 0 <= i < |g.members| && g.members[i] == g.shown
               && forall k | 0 <= k < i :: g.members[k].activity.Some?
                                           && |g.members[k].activity.value.message| < |g.shown.activity.value.message|;
      assert after.members[i] == after.shown;
    }
  }

  lemma FlattenSnoc(groups: seq<Group>, g: Group)
    ensures Flatten(groups + [g]) == Flatten(groups) + g.members
  {
    assert (groups + [g])[..|groups|] == groups;
  }

  lemma ExtendFlatten(groups: seq<Group>, m: Message)
    ensures Flatten(Extend(groups, m)) == Flatten(groups) + [m]
  {
    if groups != [] && Joins(groups[|groups| - 1], m) {
      var before, last := groups[..|groups| - 1], groups[|groups| - 1];
      FlattenSnoc(before, Joined(last, m));
      assert Flatten(before) + (last.members + [m]) == (Flatten(before) + last.members) + [m];
    } else {
      FlattenSnoc(groups, Group([m], m));
    }
  }

  predicate AllOk(groups: seq<Group>) {
    forall i | 0 <= i < |groups| :: GroupOk(groups[i])
  }

  // Messages that must not share a line: one is no activity, they are about different things, or
  // neither text begins with the other.
  predicate Apart(m: Message, n: Message) {
    m.activity.None? || n.activity.None?
    || m.activity.value.subject != n.activity.value.subject
    || (!(m.activity.value.message <= n.activity.value.message)
        && !(n.activity.value.message <= m.activity.value.message))
  }

  // The first message of a group could not have been on the line printed for the one before it.
  predicate Maximal(groups: seq<Group>) {
    forall i, j | 0 <= i && j == i + 1 < |groups| ::
      groups[j].members != [] && Apart(groups[i].shown, groups[j].members[0])
  }

  lemma ExtendOk(groups: seq<Group>, m: Message)
    requires AllOk(groups)
    ensures AllOk(Extend(groups, m))
  {
    if groups != [] && Joins(groups[|groups| - 1], m) {
      JoinedOk(groups[|groups| - 1], m);
    } else {
      assert GroupOk(Group([m], m)) by { assert [m][0] == m; }
    }
  }

  lemma ExtendMaximal(groups: seq<Group>, m: Message)
    requires AllOk(groups) && Maximal(groups)
    ensures Maximal(Extend(groups, m))
  {
    if groups != [] && Joins(groups[|groups| - 1], m) {
      assert Joined(groups[|groups| - 1], m).members[0] == groups[|groups| - 1].members[0];
    }
  }

  lemma {:induction false} FromOk(groups: seq<Group>, messages: seq<Message>)
    requires AllOk(groups) && Maximal(groups)
    ensures AllOk(GroupsFrom(groups, messages)) && Maximal(GroupsFrom(groups, messages))
    decreases |messages|
  {
    if messages != [] {
      ExtendOk(groups, messages[0]);
      ExtendMaximal(groups, messages[0]);
      FromOk(Extend(groups, messages[0]), messages[1..]);
    }
  }

  lemma {:induction false} FromFlatten(groups: seq<Group>, messages: seq<Message>)
    ensures Flatten(GroupsFrom(groups, messages)) == Flatten(groups) + messages
    decreases |messages|
  {
    if messages == [] {
      assert Flatten(groups) + messages == Flatten(groups);
    } else {
      var next, m, rest := Extend(groups, messages[0]), messages[0], messages[1..];
      ExtendFlatten(groups, m);
      FromFlatten(next, rest);
      assert GroupsFrom(groups, messages) == GroupsFrom(next, rest);
      assert messages == [m] + rest;
      assert (Flatten(groups) + [m]) + rest == Flatten(groups) + ([m] + rest);
    }
  }

  /** Collapsing cuts the log into consecutive groups, in order and without losing or repeating a
      message; every message of a group is about the same thing as the one printed for it and its
      text is a prefix of the printed text, which is the first of the longest.  The groups are as
      long as they can be: a message that starts one cannot share the line before. */
  lemma GroupsPartition(messages: seq<Message>)
    ensures Flatten(Groups(messages)) == messages
    ensures AllOk(Groups(messages)) && Maximal(Groups(messages))
  {
    FromOk([], messages);
    FromFlatten([], messages);
    assert [] + messages == messages;
  }

  // ---------------------------------------------------------------- the loop

  // The lines of all groups but the last.
  function Flushed(groups: seq<Group>): seq<Line> {
    if groups == [] then [] else Lines(groups[..|groups| - 1])
  }

  lemma NextMessage(before: seq<Group>, m: Message)
    ensures var after := Extend(before, m);
      if before != [] && Joins(before[|before| - 1], m)
      then Flushed(after) == Flushed(before) && after[|after| - 1] == Joined(before[|before| - 1], m)
      else Flushed(after) == Lines(before) && after[|after| - 1] == Group([m], m)
  {
    var after := Extend(before, m);
    assert after[..|after| - 1] == if |after| == |before| then before[..|before| - 1] else before;
  }

  lemma LinesLast(groups: seq<Group>)
    requires groups != []
    ensures Lines(groups) == Flushed(groups) + [LineOf(groups[|groups| - 1])]
  {
  }

  method PrintCollapsedActivityMessages(messages: seq<Message>) returns (printed: seq<Line>)
    ensures printed == Lines(Groups(messages))
  {
    printed := [];
    var pending: Option<Message> := None;
    var pendingCount := 0;
    ghost var groups: seq<Group> := [];
    for i := 0 to |messages|
      invariant GroupsFrom(groups, messages[i..]) == Groups(messages)
      invariant Printing(groups, pending, pendingCount, printed)
    {
      var msg := messages[i];
      assert messages[i..][0] == msg && messages[i..][1..] == messages[i + 1..];
      NextMessage(groups, msg);
      Flush(groups, pending, pendingCount, printed);
      groups := Extend(groups, msg);
      LinesLast(groups);
      if msg.activity.None? {
        if pending.Some? { printed := printed + [Line(pending.value, pendingCount - 1)]; }
        printed, pending, pendingCount := printed + [Line(msg, 0)], None, 0;
      } else if pending.None? {
        pending, pendingCount := Some(msg), 1;
      } else if CanCollapse(pending.value.activity.value, msg.activity.value) {
        if |msg.activity.value.message| > |pending.value.activity.value.message| { pending := Some(msg); }
        pendingCount := pendingCount + 1;
      } else {
        printed := printed + [Line(pending.value, pendingCount - 1)];
        pending, pendingCount := Some(msg), 1;
      }
    }
    assert messages[|messages|..] == [];
    Flush(groups, pending, pendingCount, printed);
    if pending.Some? { printed := printed + [Line(pending.value, pendingCount - 1)]; }
  }

  // Where the loop stands: everything is printed but the group that may still grow.
  predicate Printing(groups: seq<Group>, pending: Option<Message>, count: nat, printed: seq<Line>) {
    match pending
    case None => printed == Lines(groups) && (groups != [] ==> groups[|groups| - 1].shown.activity.None?)
    case Some(m) =>
      && groups != [] && m.activity.Some? && printed == Flushed(groups)
      && groups[|groups| - 1].shown == m && |groups[|groups| - 1].members| == count > 0
  }

  lemma Flush(groups: seq<Group>, pending: Option<Message>, count: nat, printed: seq<Line>)
    requires Printing(groups, pending, count, printed)
    ensures pending.Some? ==> printed + [Line(pending.value, count - 1)] == Lines(groups)
  {
    if groups != [] { LinesLast(groups); }
  }

  /** The counts printed account for every message of the log. */
  lemma CountsAddUp(messages: seq<Message>)
    ensures Total(Lines(Groups(messages))) == |messages|
  {
    GroupsPartition(messages);
    SizesAddUp(Groups(messages));
  }

  lemma {:induction false} SizesAddUp(groups: seq<Group>)
    requires AllOk(groups)
    ensures Total(Lines(groups)) == |Flatten(groups)|
    decreases |groups|
  {
    if groups != [] {
      var front, last := groups[..|groups| - 1], groups[|groups| - 1];
      assert GroupOk(last);
      SizesAddUp(front);
      assert Lines(groups)[..|groups| - 1] == Lines(front);
    }
  }

  function Total(lines: seq<Line>): nat {
    if lines == [] then 0 else Total(lines[..|lines| - 1]) + lines[|lines| - 1].similar + 1
  }

  // Activities about one thing whose texts grow or stay the same.
  predicate Growing(messages: seq<Message>) {
    && (forall i | 0 <= i < |messages| :: messages[i].activity.Some?)
    && (forall i, j | 0 <= i && j == i + 1 < |messages| ::
          && messages[i].activity.value.subject == messages[j].activity.value.subject
          && messages[i].activity.value.message <= messages[j].activity.value.message)
  }

  /** A burst of messages that only grow is one line, with the last text and the number of the
      others. */
  lemma {:induction false} GrowingIsOneLine(messages: seq<Message>)
    requires messages != [] && Growing(messages)
    ensures var lines := Lines(Groups(messages));
      && |lines| == 1 && lines[0].similar == |messages| - 1
      && lines[0].message.activity == messages[|messages| - 1].activity
  {
    GroupsPartition(messages);
    OneGroup(messages);
    FlattenSnoc([], Groups(messages)[0]);
    assert [] + [Groups(messages)[0]] == Groups(messages);
  }

  lemma {:induction false} OneGroup(messages: seq<Message>)
    requires messages != [] && Growing(messages)
    ensures |Groups(messages)| == 1 && Groups(messages)[0].shown.activity == messages[|messages| - 1].activity
    decreases |messages|
  {
    var front, last := messages[..|messages| - 1], messages[|messages| - 1];
    GroupsSnoc([], front, last);
    assert front + [last] == messages;
    assert Groups(messages) == Extend(Groups(front), last);
    if front != [] {
      OneGroup(front);
      assert front[|front| - 1] == messages[|front| - 1];
      assert Joins(Groups(front)[0], last);
    }
  }

  lemma {:induction false} GroupsSnoc(groups: seq<Group>, messages: seq<Message>, m: Message)
    ensures GroupsFrom(groups, messages + [m]) == Extend(GroupsFrom(groups, messages), m)
    decreases |messages|
  {
    if messages == [] {
      assert messages + [m] == [m] && [m][1..] == [];
    } else {
      assert (messages + [m])[1..] == messages[1..] + [m];
      GroupsSnoc(Extend(groups, messages[0]), messages[1..], m);
    }
  }

  /** What collapses pairwise need not collapse together: an empty text collapses with any other,
      so the relation is symmetric and not transitive, and the grouping depends on the order. */
  lemma CollapsingIsNotTransitive(s: Subject)
    ensures var x, empty, y := Activity(s, "x"), Activity(s, ""), Activity(s, "y");
      CanCollapse(x, empty) && CanCollapse(empty, y) && !CanCollapse(x, y)
    ensures forall a: Activity, b: Activity :: CanCollapse(a, b) == CanCollapse(b, a)
  {
    assert "x"[0] != "y"[0];
  }
}
