/**
 Retained coding groups over every run: where each came from, that it never changes, and that
 it is forgotten only after its retention window.
 */
module GuildRetention {
  import opened Base
  import opened Coding
  import opened Guild
  import opened GuildSafety
  import opened GuildHistory

  // ---------------------------------------------------------------- groups by id

  predicate HasGroup(groups: seq<RetainedGroup>, id: nat) {
    FindGroup(groups, id).Some?
  }

  function GroupEntry(groups: seq<RetainedGroup>, id: nat): RetainedGroup
    requires HasGroup(groups, id)
  {
    groups[FindGroup(groups, id).value]
  }

  lemma GroupIsUnique(groups: seq<RetainedGroup>, i: nat)
    requires GroupsOrdered(groups) && i < |groups|
    ensures HasGroup(groups, groups[i].group.id) && GroupEntry(groups, groups[i].group.id) == groups[i]
  {
    var j := FindGroup(groups, groups[i].group.id).value;
    assert groups[j].group.id == groups[i].group.id;
  }

  lemma FoundIn(groups: seq<RetainedGroup>, g: RetainedGroup)
    requires GroupsOrdered(groups) && g in groups
    ensures HasGroup(groups, g.group.id) && GroupEntry(groups, g.group.id) == g
  {
    var i :| 0 <= i < |groups| && groups[i] == g;
    GroupIsUnique(groups, i);
  }

  function Added(kind: EventKind): Option<Group> {
    match kind
    case AddCodingGroup(group) => Some(group)
    case AddCodingGroupBound(group, _) => Some(group)
    case _ => None
  }

  // ---------------------------------------------------------------- one event

  /** A group is added only while its id is free. */
  ghost predicate GroupsAdded(a: seq<RetainedGroup>, b: seq<RetainedGroup>, sequence: nat, group: Group) {
    !HasGroup(a, group.id) && forall x :: x in b <==> x in a || x == RetainedGroup(group, sequence, None, None)
  }

  /** What one event does to the groups. */
  ghost predicate GroupsMoved(a: seq<RetainedGroup>, b: seq<RetainedGroup>, sequence: nat, kind: EventKind) {
    match kind
    case AddCodingGroup(group) => GroupsAdded(a, b, sequence, group)
    case AddCodingGroupBound(group, _) => GroupsAdded(a, b, sequence, group)
    case RetireCodingGroup(id, retainThrough) =>
      && HasGroup(a, id) && GroupEntry(a, id).retiredAt.None?
      && (forall x :: x in b ==>
            || (x in a && x.group.id != id)
            || x == GroupEntry(a, id).(retiredAt := Some(sequence), retainThrough := Some(retainThrough)))
      && (forall x :: x in a && x.group.id != id ==> x in b)
      && GroupEntry(a, id).(retiredAt := Some(sequence), retainThrough := Some(retainThrough)) in b
    case ForgetCodingGroup(id) =>
      && HasGroup(a, id) && GroupEntry(a, id).retainThrough.Some? && GroupEntry(a, id).retainThrough.value < sequence
      && forall x :: x in b <==> x in a && x.group.id != id
    case _ => a == b
  }

  lemma InsertMoves(groups: seq<RetainedGroup>, g: RetainedGroup, x: RetainedGroup)
    ensures x in InsertGroup(groups, g) <==> x in groups || x == g
  {
    var n := GroupsBelow(groups, g.group.id);
    assert groups == groups[..n] + groups[n..];
  }

  lemma AddMoves(c: Crypto, s: State, sequence: nat, group: Group)
    requires AddGroup(c, s, sequence, group).Ok?
    ensures GroupsAdded(s.codingGroups, AddGroup(c, s, sequence, group).value.codingGroups, sequence, group)
  {
    var g := RetainedGroup(group, sequence, None, None);
    forall x ensures x in InsertGroup(s.codingGroups, g) <==> x in s.codingGroups || x == g {
      InsertMoves(s.codingGroups, g, x);
    }
  }

  lemma RetireMoves(groups: seq<RetainedGroup>, id: nat, sequence: nat, through: nat, x: RetainedGroup)
    requires GroupsOrdered(groups) && HasGroup(groups, id)
    ensures var at := FindGroup(groups, id).value;
            var retired := groups[at].(retiredAt := Some(sequence), retainThrough := Some(through));
            var b := groups[at := retired];
            && (x in b ==> (x in groups && x.group.id != id) || x == retired)
            && (x in groups && x.group.id != id ==> x in b) && retired in b
  {
    var at := FindGroup(groups, id).value;
    var retired := groups[at].(retiredAt := Some(sequence), retainThrough := Some(through));
    var b := groups[at := retired];
    if x in b {
      var i :| 0 <= i < |b| && b[i] == x;
      if i != at { GroupIsUnique(groups, i); }
    }
    if x in groups && x.group.id != id {
      var i :| 0 <= i < |groups| && groups[i] == x;
      assert b[i] == x;
    }
    assert b[at] == retired;
  }

  lemma ForgetMoves(groups: seq<RetainedGroup>, id: nat, x: RetainedGroup)
    requires GroupsOrdered(groups) && HasGroup(groups, id)
    ensures var at := FindGroup(groups, id).value;
            x in groups[..at] + groups[at + 1..] <==> x in groups && x.group.id != id
  {
    var at := FindGroup(groups, id).value;
    WithoutOne(groups, at, x);
    if x in groups && x.group.id == id {
      FoundIn(groups, x);
    }
    if x in groups[..at] || x in groups[at + 1..] { OtherIds(groups, at, x); }
  }

  lemma WithoutOne(groups: seq<RetainedGroup>, at: nat, x: RetainedGroup)
    requires at < |groups|
    ensures x in groups[..at] + groups[at + 1..] <==> x in groups[..at] || x in groups[at + 1..]
    ensures x in groups <==> x in groups[..at] || x == groups[at] || x in groups[at + 1..]
  {
    assert groups == groups[..at] + [groups[at]] + groups[at + 1..];
  }

  lemma OtherIds(groups: seq<RetainedGroup>, at: nat, x: RetainedGroup)
    requires GroupsOrdered(groups) && at < |groups| && (x in groups[..at] || x in groups[at + 1..])
    ensures x.group.id != groups[at].group.id
  {
  }

  lemma GroupsHere(c: Crypto, s: State, sequence: nat, kind: EventKind)
    requires ApplyKind(c, s, sequence, kind).Ok? && GroupsOrdered(s.codingGroups)
    ensures GroupsMoved(s.codingGroups, ApplyKind(c, s, sequence, kind).value.codingGroups, sequence, kind)
  {
    match kind
    case AddCodingGroup(group) => AddMoves(c, s, sequence, group);
    case AddCodingGroupBound(group, _) => AddMoves(c, s, sequence, group);
    case RetireCodingGroup(id, through) => RetiredHere(c, s, sequence, id, through);
    case ForgetCodingGroup(id) => ForgottenHere(c, s, sequence, id);
    case _ =>
  }

  lemma RetiredHere(c: Crypto, s: State, sequence: nat, id: nat, through: nat)
    requires ApplyGroups(c, s, sequence, RetireCodingGroup(id, through)).Ok? && GroupsOrdered(s.codingGroups)
    ensures GroupsMoved(s.codingGroups, ApplyGroups(c, s, sequence, RetireCodingGroup(id, through)).value.codingGroups,
                        sequence, RetireCodingGroup(id, through))
  {
    forall x ensures
      var at := FindGroup(s.codingGroups, id).value;
      var retired := s.codingGroups[at].(retiredAt := Some(sequence), retainThrough := Some(through));
      var b := s.codingGroups[at := retired];
      && (x in b ==> (x in s.codingGroups && x.group.id != id) || x == retired)
      && (x in s.codingGroups && x.group.id != id ==> x in b) && retired in b
    {
      RetireMoves(s.codingGroups, id, sequence, through, x);
    }
  }

  lemma ForgottenHere(c: Crypto, s: State, sequence: nat, id: nat)
    requires ApplyGroups(c, s, sequence, ForgetCodingGroup(id)).Ok? && GroupsOrdered(s.codingGroups)
    ensures GroupsMoved(s.codingGroups, ApplyGroups(c, s, sequence, ForgetCodingGroup(id)).value.codingGroups,
                        sequence, ForgetCodingGroup(id))
  {
    var at := FindGroup(s.codingGroups, id).value;
    forall x ensures x in s.codingGroups[..at] + s.codingGroups[at + 1..] <==> x in s.codingGroups && x.group.id != id {
      ForgetMoves(s.codingGroups, id, x);
    }
  }

  lemma GroupsStep(c: Crypto, s: State, certified: Certified)
    requires ValidState(c, s) && ApplyEvent(c, s, certified).Ok?
    ensures var t := ApplyEvent(c, s, certified).value;
            && GroupsOrdered(s.codingGroups) && GroupsOrdered(t.codingGroups)
            && certified.event.sequence == s.eventSequence + 1
            && GroupsMoved(s.codingGroups, t.codingGroups, certified.event.sequence, certified.event.kind)
  {
    AppliedSequence(c, s, certified);
    Effect(c, s, certified);
    GroupsHere(c, s, certified.event.sequence, certified.event.kind);
  }

  // ---------------------------------------------------------------- while retained

  /** The same group later on: at most retired in between. */
  predicate SameGroup(a: RetainedGroup, b: RetainedGroup) {
    && b.group == a.group && b.addedAt == a.addedAt
    && (a.retiredAt.Some? ==> b.retiredAt == a.retiredAt && b.retainThrough == a.retainThrough)
  }

  lemma RetainedHere(a: seq<RetainedGroup>, b: seq<RetainedGroup>, sequence: nat, kind: EventKind, id: nat)
    requires GroupsOrdered(a) && GroupsOrdered(b) && GroupsMoved(a, b, sequence, kind) && HasGroup(a, id)
    requires kind != ForgetCodingGroup(id)
    ensures HasGroup(b, id) && SameGroup(GroupEntry(a, id), GroupEntry(b, id))
  {
    var x := GroupEntry(a, id);
    assert x in a;
    if kind.RetireCodingGroup? && kind.groupId == id {
      FoundIn(b, x.(retiredAt := Some(sequence), retainThrough := Some(kind.retainThrough)));
    } else {
      FoundIn(b, x);
    }
  }

  predicate Forgets(events: seq<Certified>, id: nat) {
    exists i :: 0 <= i < |events| && events[i].event.kind == ForgetCodingGroup(id)
  }

  /** Until it is forgotten, a group stays, with the same descriptor. */
  lemma {:induction false} RetainedIsUnchanged(c: Crypto, s: State, events: seq<Certified>, id: nat)
    requires ValidState(c, s) && Replay(c, s, events).Ok? && HasGroup(s.codingGroups, id) && !Forgets(events, id)
    ensures var t := Replay(c, s, events).value;
            HasGroup(t.codingGroups, id) && SameGroup(GroupEntry(s.codingGroups, id), GroupEntry(t.codingGroups, id))
  {
    if events != [] {
      var front, last := events[..|events| - 1], events[|events| - 1];
      assert forall i :: 0 <= i < |front| ==> front[i] == events[i];
      RetainedIsUnchanged(c, s, front, id);
      ReplayedIsValid(c, s, front);
      var before := Replay(c, s, front).value;
      GroupsStep(c, before, last);
      RetainedHere(before.codingGroups, Replay(c, s, events).value.codingGroups, last.event.sequence, last.event.kind,
                   id);
    }
  }

  // ---------------------------------------------------------------- where groups come from

  /** The event with a given sequence number in a run that starts after `base`. */
  predicate EventAt(events: seq<Certified>, base: nat, sequence: nat) {
    base < sequence <= base + |events|
  }

  function KindAt(events: seq<Certified>, base: nat, sequence: nat): EventKind
    requires EventAt(events, base, sequence)
  {
    events[sequence - base - 1].event.kind
  }

  /** The event begins or ends a life of the group. */
  predicate BeginsOrEnds(kind: EventKind, id: nat) {
    kind == ForgetCodingGroup(id) || (Added(kind).Some? && Added(kind).value.id == id)
  }

  /** The group was added by an event of the run, or was there when the run began. */
  ghost predicate Born(events: seq<Certified>, base: nat, first: seq<RetainedGroup>, g: RetainedGroup) {
    if g.addedAt > base then EventAt(events, base, g.addedAt) && Added(KindAt(events, base, g.addedAt)) == Some(g.group)
    else HasGroup(first, g.group.id) && SameGroup(GroupEntry(first, g.group.id), g)
  }

  /** Since it was added, no event of the run added or forgot a group with its id. */
  ghost predicate OneLife(events: seq<Certified>, base: nat, g: RetainedGroup) {
    forall n: nat :: EventAt(events, base, n) && n > g.addedAt ==> !BeginsOrEnds(KindAt(events, base, n), g.group.id)
  }

  predicate Retires(kind: EventKind, id: nat) {
    kind.RetireCodingGroup? && kind.groupId == id
  }

  /** At most one event retired it since it was added, the one on record. */
  ghost predicate OneRetire(events: seq<Certified>, base: nat, g: RetainedGroup) {
    forall n: nat :: EventAt(events, base, n) && n > g.addedAt && Retires(KindAt(events, base, n), g.group.id) ==>
                       g.retiredAt == Some(n)
  }

  /** If it is retired, an event of the run after its addition retired it, or it began retired. */
  ghost predicate Retired(events: seq<Certified>, base: nat, first: seq<RetainedGroup>, g: RetainedGroup) {
    && (g.retiredAt.Some? <==> g.retainThrough.Some?)
    && (g.retiredAt.Some? ==>
          if g.retiredAt.value > base then
            && EventAt(events, base, g.retiredAt.value) && g.addedAt < g.retiredAt.value
            && KindAt(events, base, g.retiredAt.value) == RetireCodingGroup(g.group.id, g.retainThrough.value)
          else
            && HasGroup(first, g.group.id) && GroupEntry(first, g.group.id).retiredAt == g.retiredAt
            && GroupEntry(first, g.group.id).retainThrough == g.retainThrough)
  }

  /** The whole life of a retained group is in the run. */
  ghost predicate FromRun(events: seq<Certified>, base: nat, first: seq<RetainedGroup>, g: RetainedGroup) {
    && Born(events, base, first, g) && OneLife(events, base, g)
    && Retired(events, base, first, g) && OneRetire(events, base, g)
  }

  ghost predicate AllFromRun(events: seq<Certified>, base: nat, first: seq<RetainedGroup>, groups: seq<RetainedGroup>) {
    forall x :: x in groups ==> FromRun(events, base, first, x)
  }

  lemma LongerRun(events: seq<Certified>, base: nat, n: nat)
    requires events != [] && EventAt(events, base, n) && n < base + |events|
    ensures EventAt(events[..|events| - 1], base, n)
    ensures KindAt(events[..|events| - 1], base, n) == KindAt(events, base, n)
  {
  }

  lemma LongerLife(events: seq<Certified>, base: nat, g: RetainedGroup)
    requires events != [] && OneLife(events[..|events| - 1], base, g)
    requires !BeginsOrEnds(events[|events| - 1].event.kind, g.group.id)
    ensures OneLife(events, base, g)
  {
    forall n: nat | EventAt(events, base, n) && n > g.addedAt
      ensures !BeginsOrEnds(KindAt(events, base, n), g.group.id)
    {
      if n < base + |events| { LongerRun(events, base, n); }
    }
  }

  lemma FromLongerRun(events: seq<Certified>, base: nat, first: seq<RetainedGroup>, g: RetainedGroup)
    requires events != [] && FromRun(events[..|events| - 1], base, first, g)
    requires !BeginsOrEnds(events[|events| - 1].event.kind, g.group.id)
    requires !Retires(events[|events| - 1].event.kind, g.group.id)
    ensures FromRun(events, base, first, g)
  {
    LongerLife(events, base, g);
    forall n: nat | EventAt(events, base, n) && n > g.addedAt && Retires(KindAt(events, base, n), g.group.id)
      ensures g.retiredAt == Some(n)
    {
      if n < base + |events| { LongerRun(events, base, n); }
    }
  }

  lemma RetiredInRun(events: seq<Certified>, base: nat, first: seq<RetainedGroup>, g: RetainedGroup, through: nat)
    requires events != [] && FromRun(events[..|events| - 1], base, first, g) && g.retiredAt.None?
             && g.addedAt < base + |events|
    requires events[|events| - 1].event.kind == RetireCodingGroup(g.group.id, through)
    ensures FromRun(events, base, first, g.(retiredAt := Some(base + |events|), retainThrough := Some(through)))
  {
    var retired := g.(retiredAt := Some(base + |events|), retainThrough := Some(through));
    LongerLife(events, base, g);
    assert forall n: nat :: EventAt(events, base, n) && n > g.addedAt ==>
             !BeginsOrEnds(KindAt(events, base, n), g.group.id);
    assert KindAt(events, base, base + |events|) == events[|events| - 1].event.kind;
    forall n: nat | EventAt(events, base, n) && n > g.addedAt && Retires(KindAt(events, base, n), g.group.id)
      ensures n == base + |events|
    {
      if n < base + |events| { LongerRun(events, base, n); }
    }
    assert OneRetire(events, base, retired);
  }

  lemma BornBefore(events: seq<Certified>, base: nat, first: seq<RetainedGroup>, g: RetainedGroup)
    requires Born(events, base, first, g)
    ensures g.addedAt <= base + |events|
  {
  }

  /** An entry that stays was not begun, retired or ended by the event. */
  lemma StaysInLife(a: seq<RetainedGroup>, b: seq<RetainedGroup>, sequence: nat, kind: EventKind, x: RetainedGroup)
    requires GroupsMoved(a, b, sequence, kind) && GroupsOrdered(a) && x in a && x in b
    ensures !BeginsOrEnds(kind, x.group.id) && !Retires(kind, x.group.id)
  {
    FoundIn(a, x);
  }

  lemma FromRunStep(events: seq<Certified>, base: nat, first: seq<RetainedGroup>, a: seq<RetainedGroup>,
                    b: seq<RetainedGroup>, x: RetainedGroup)
    requires events != [] && GroupsOrdered(a) && AllFromRun(events[..|events| - 1], base, first, a) && x in b
    requires GroupsMoved(a, b, base + |events|, events[|events| - 1].event.kind)
    ensures FromRun(events, base, first, x)
  {
    var kind, sequence := events[|events| - 1].event.kind, base + |events|;
    assert KindAt(events, base, sequence) == kind;
    if x in a {
      StaysInLife(a, b, sequence, kind, x);
      FromLongerRun(events, base, first, x);
    } else if kind.RetireCodingGroup? {
      var g := GroupEntry(a, kind.groupId);
      assert g in a;
      BornBefore(events[..|events| - 1], base, first, g);
      RetiredInRun(events, base, first, g, kind.retainThrough);
    } else {
      assert Added(kind).Some? && x == RetainedGroup(Added(kind).value, sequence, None, None);
    }
  }

  /** The groups after each event of a run. */
  ghost predicate Course(events: seq<Certified>, base: nat, course: seq<seq<RetainedGroup>>) {
    && |course| == |events| + 1
    && (forall x :: x in course[0] ==> FromRun([], base, course[0], x))
    && forall n :: 0 <= n < |events| ==> MovedAt(events, base, course, n)
  }

  ghost predicate MovedAt(events: seq<Certified>, base: nat, course: seq<seq<RetainedGroup>>, n: nat)
    requires |course| == |events| + 1 && n < |events|
  {
    Moves(course[n], course[n + 1], base + n + 1, events[n].event.kind)
  }

  /** The effect of an event, spelled for any equal sequence number so that it opens up only where used. */
  ghost predicate Moves(a: seq<RetainedGroup>, b: seq<RetainedGroup>, sequence: nat, kind: EventKind) {
    forall n: nat :: n == sequence ==> GroupsMoved(a, b, n, kind) && GroupsOrdered(a)
  }

  lemma {:induction false} CourseFromRun(events: seq<Certified>, base: nat, course: seq<seq<RetainedGroup>>, n: nat)
    requires Course(events, base, course) && n <= |events|
    ensures AllFromRun(events[..n], base, course[0], course[n])
  {
    if n > 0 {
      CourseFromRun(events, base, course, n - 1);
      assert MovedAt(events, base, course, n - 1);
      assert GroupsMoved(course[n - 1], course[n], base + n, events[n - 1].event.kind);
      var part := events[..n];
      assert part[..n - 1] == events[..n - 1] && part[n - 1] == events[n - 1];
      forall x | x in course[n] ensures FromRun(part, base, course[0], x) {
        FromRunStep(part, base, course[0], course[n - 1], course[n], x);
      }
    } else {
      assert events[..0] == [];
    }
  }

  ghost function GroupsAfter(c: Crypto, s: State, events: seq<Certified>, n: nat): seq<RetainedGroup>
    requires Replay(c, s, events).Ok? && n <= |events|
  {
    PrefixReplays(c, s, events, n);
    Replay(c, s, events[..n]).value.codingGroups
  }

  lemma GroupsMoveAt(c: Crypto, s: State, events: seq<Certified>, n: nat)
    requires Replay(c, s, events).Ok? && n < |events|
    ensures Moves(GroupsAfter(c, s, events, n), GroupsAfter(c, s, events, n + 1), s.eventSequence + n + 1,
                  events[n].event.kind)
    ensures events[n].event.sequence == s.eventSequence + n + 1
  {
    ReplayStep(c, s, events, n);
    SequenceCounts(c, s, events[..n]);
    MoveFrom(c, Replay(c, s, events[..n]).value, events[n], Replay(c, s, events[..n + 1]).value);
  }

  lemma MoveFrom(c: Crypto, before: State, certified: Certified, after: State)
    requires ApplyEvent(c, before, certified) == Ok(after)
    ensures Moves(before.codingGroups, after.codingGroups, before.eventSequence + 1, certified.event.kind)
    ensures certified.event.sequence == before.eventSequence + 1
  {
    GroupsStep(c, before, certified);
  }

  /** The groups a valid state starts with have all their life behind them. */
  lemma FirstGroups(c: Crypto, s: State, x: RetainedGroup)
    requires ValidState(c, s) && x in s.codingGroups
    ensures FromRun([], s.eventSequence, s.codingGroups, x)
  {
    FoundIn(s.codingGroups, x);
  }

  lemma CourseOfRun(c: Crypto, s: State, events: seq<Certified>) returns (course: seq<seq<RetainedGroup>>)
    requires ValidState(c, s) && Replay(c, s, events).Ok?
    ensures Course(events, s.eventSequence, course) && course[0] == s.codingGroups
    ensures forall n :: 0 <= n <= |events| ==> course[n] == GroupsAfter(c, s, events, n)
    ensures forall n :: 0 <= n < |events| ==> events[n].event.sequence == s.eventSequence + n + 1
  {
    course := seq(|events| + 1, n requires 0 <= n <= |events| => GroupsAfter(c, s, events, n));
    forall n | 0 <= n < |events|
      ensures MovedAt(events, s.eventSequence, course, n) && events[n].event.sequence == s.eventSequence + n + 1
    {
      GroupsMoveAt(c, s, events, n);
    }
    assert events[..0] == [];
    forall x | x in course[0] ensures FromRun([], s.eventSequence, course[0], x) { FirstGroups(c, s, x); }
  }

  /**
   Every retained group has its whole life in the run, or began it with: one event added it,
   none added or forgot its id since, and if it is retired, a later event retired it, and
   no other one.
   */
  lemma GroupsComeFromRun(c: Crypto, s: State, events: seq<Certified>)
    requires ValidState(c, s) && Replay(c, s, events).Ok?
    ensures AllFromRun(events, s.eventSequence, s.codingGroups, Replay(c, s, events).value.codingGroups)
  {
    var course := CourseOfRun(c, s, events);
    CourseFromRun(events, s.eventSequence, course, |events|);
    assert events[..|events|] == events;
  }

  lemma ForgetInCourse(events: seq<Certified>, base: nat, course: seq<seq<RetainedGroup>>, k: nat, id: nat)
    requires Course(events, base, course) && k < |events| && events[k].event.kind == ForgetCodingGroup(id)
    ensures HasGroup(course[k], id) && FromRun(events[..k], base, course[0], GroupEntry(course[k], id))
    ensures GroupEntry(course[k], id).retainThrough.Some?
            && GroupEntry(course[k], id).retainThrough.value < base + k + 1
  {
    CourseFromRun(events, base, course, k);
    assert MovedAt(events, base, course, k);
    assert GroupsMoved(course[k], course[k + 1], base + k + 1, events[k].event.kind);
    assert GroupEntry(course[k], id) in course[k];
  }

  /**
   A forget event ends a life that was retired, and comes only after the retention announced then.
   The entry it forgets was added once, by the run or before it; since then no event added or
   forgot its id; and the retire event that announced its retention lies within that life.
   */
  lemma ForgetFollowsRetire(c: Crypto, s: State, events: seq<Certified>, k: nat, id: nat)
    requires ValidState(c, s) && Replay(c, s, events).Ok?
    requires k < |events| && events[k].event.kind == ForgetCodingGroup(id)
    ensures var groups := GroupsAfter(c, s, events, k);
            && HasGroup(groups, id) && FromRun(events[..k], s.eventSequence, s.codingGroups, GroupEntry(groups, id))
            && GroupEntry(groups, id).retainThrough.Some?
            && GroupEntry(groups, id).retainThrough.value < events[k].event.sequence == s.eventSequence + k + 1
  {
    var course := CourseOfRun(c, s, events);
    ForgetInCourse(events, s.eventSequence, course, k, id);
  }

  /** Between the retire event of a forgotten entry and the forget event its id is left alone. */
  lemma RetiredLife(events: seq<Certified>, base: nat, first: seq<RetainedGroup>, g: RetainedGroup) returns (q: nat)
    requires FromRun(events, base, first, g) && g.retiredAt.Some? && g.retiredAt.value > base
    ensures q < |events| && events[q].event.kind == RetireCodingGroup(g.group.id, g.retainThrough.value)
    ensures g.addedAt <= base + q
    ensures forall j :: 0 <= j < |events| && g.addedAt <= base + j ==>
              !BeginsOrEnds(events[j].event.kind, g.group.id) && (Retires(events[j].event.kind, g.group.id) ==> j == q)
  {
    q := g.retiredAt.value - base - 1;
    forall j | 0 <= j < |events| && g.addedAt <= base + j
      ensures !BeginsOrEnds(events[j].event.kind, g.group.id) && (Retires(events[j].event.kind, g.group.id) ==> j == q)
    {
      assert KindAt(events, base, base + j + 1) == events[j].event.kind;
    }
  }
}
