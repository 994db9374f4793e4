/** Two saves of one session that both pass validation before either appends.

    Nothing locks a session, so their writes can interleave one by one. */
module SessionRace {
  import opened SessionStore
  import opened Wrappers

  /** What a validated save still has to append, and the state it writes last; no state once it is done. */
  datatype Writer = Writer(messages: seq<Message>, events: seq<Event>, state: Option<StatePayload>)

  function WritesOf(p: Path, w: Writer): seq<Write> {
    if w.state.None? then [] else Remaining(true, p, w.messages, w.events, w.state.value)
  }

  function Next(w: Writer): Writer {
    if w.messages != [] then w.(messages := w.messages[1..])
    else if w.events != [] then w.(events := w.events[1..])
    else w.(state := None)
  }

  /** The state to write counts no more than is visible by then. */
  ghost predicate Due(d: Disk, id: SessionId, w: Writer) {
    if w.state.None? then w.messages == [] && w.events == []
    else
      && w.state.value.transcriptCount <= |Transcript(d, id)| + |w.messages|
      && w.state.value.eventCount <= |EventLog(d, id)| + |w.events|
  }

  /** Two sequences merged in some way, each in its own order. */
  predicate Merges<T(==)>(r: seq<T>, a: seq<T>, b: seq<T>)
    decreases |r|
  {
    if r == [] then a == [] && b == []
    else
      || (a != [] && r[0] == a[0] && Merges(r[1..], a[1..], b))
      || (b != [] && r[0] == b[0] && Merges(r[1..], a, b[1..]))
  }

  lemma {:induction false} MergesSymmetric<T>(r: seq<T>, a: seq<T>, b: seq<T>)
    requires Merges(r, a, b)
    ensures Merges(r, b, a)
    decreases |r|
  {
    if r != [] {
      if a != [] && r[0] == a[0] && Merges(r[1..], a[1..], b) {
        MergesSymmetric(r[1..], a[1..], b);
      } else {
        MergesSymmetric(r[1..], a, b[1..]);
      }
    }
  }

  /** Nothing is lost and nothing invented, and a sequence merged with nothing is itself. */
  lemma {:induction false} MergesAll<T>(r: seq<T>, a: seq<T>, b: seq<T>)
    requires Merges(r, a, b)
    ensures |r| == |a| + |b| && multiset(r) == multiset(a) + multiset(b)
    ensures b == [] ==> r == a
    decreases |r|
  {
    if r != [] {
      assert r == [r[0]] + r[1..];
      if a != [] && r[0] == a[0] && Merges(r[1..], a[1..], b) {
        MergesAll(r[1..], a[1..], b);
        assert a == [a[0]] + a[1..];
      } else {
        MergesAll(r[1..], a, b[1..]);
        assert b == [b[0]] + b[1..];
      }
    }
  }

  /** What two writers together make of a history. */
  ghost predicate Added<T>(before: seq<T>, after: seq<T>, first: seq<T>, second: seq<T>) {
    before <= after && Merges(after[|before|..], first, second)
  }

  lemma {:induction false} AddedFirst<T>(before: seq<T>, mid: seq<T>, after: seq<T>, first: seq<T>, second: seq<T>)
    requires first != [] && mid == before + [first[0]] && Added(mid, after, first[1..], second)
    ensures Added(before, after, first, second)
  {
    assert after[|before|..][1..] == after[|mid|..];
    assert after[|before|..][0] == mid[|before|];
  }

  lemma {:induction false} AddedSwap<T>(before: seq<T>, after: seq<T>, first: seq<T>, second: seq<T>)
    requires Added(before, after, first, second)
    ensures Added(before, after, second, first)
  {
    MergesSymmetric(after[|before|..], first, second);
  }

  /** The next write of a writer: its one entry goes to the end, and both writers stay within what is visible. */
  lemma {:induction false} WriterStep(d: Disk, id: SessionId, p: Path, w: Writer, other: Writer)
    requires Sound(d) && BoundTo(d, id, p) && w.state.Some? && Due(d, id, w) && Due(d, id, other)
    ensures WritesOf(p, w) != [] && WritesOf(p, w)[1..] == WritesOf(p, Next(w))
    ensures var e := Perform(d, id, WritesOf(p, w)[0]);
            && Preserves(d, e, id) && BoundTo(e, id, p) && Due(e, id, Next(w)) && Due(e, id, other)
            && Transcript(e, id) == Transcript(d, id) + (if w.messages != [] then [w.messages[0]] else [])
            && EventLog(e, id) == EventLog(d, id) +
               (if w.messages == [] && w.events != [] then [w.events[0]] else [])
  {
    hide Transcript, EventLog, CountsVisible, Anchored, Grows, SameView;
    RemainingHead(true, p, w.messages, w.events, w.state.value);
    var write := WritesOf(p, w)[0];
    PerformVisible(d, id, write, id);
    PerformSound(d, id, write);
  }

  /** What both writers leave: nobody else notices, and both histories hold both writers' entries, merged. */
  ghost predicate BothWrote(d: Disk, e: Disk, id: SessionId, w1: Writer, w2: Writer) {
    && Preserves(d, e, id)
    && Added(Transcript(d, id), Transcript(e, id), w1.messages, w2.messages)
    && Added(EventLog(d, id), EventLog(e, id), w1.events, w2.events)
  }

  lemma {:induction false} AfterStep(d: Disk, mid: Disk, e: Disk, id: SessionId, p: Path, w: Writer, other: Writer)
    requires Sound(d) && BoundTo(d, id, p) && w.state.Some? && Due(d, id, w) && Due(d, id, other)
    requires mid == Perform(d, id, WritesOf(p, w)[0]) && BothWrote(mid, e, id, Next(w), other)
    ensures BothWrote(d, e, id, w, other)
  {
    hide Transcript, EventLog, Sound, Grows, SameView, Merges;
    WriterStep(d, id, p, w, other);
    PreservesTransitive(d, mid, e, id);
    if w.messages != [] {
      AddedFirst(Transcript(d, id), Transcript(mid, id), Transcript(e, id), w.messages, other.messages);
    } else if w.events != [] {
      AddedFirst(EventLog(d, id), EventLog(mid, id), EventLog(e, id), w.events, other.events);
    }
  }

  lemma {:induction false} NothingLeft(d: Disk, id: SessionId, w1: Writer, w2: Writer)
    requires Sound(d) && Due(d, id, w1) && Due(d, id, w2) && w1.state.None? && w2.state.None?
    ensures BothWrote(d, d, id, w1, w2)
  {
    hide Transcript, EventLog;
    PreservesSelf(d, id);
    assert Transcript(d, id)[|Transcript(d, id)|..] == [] && EventLog(d, id)[|EventLog(d, id)|..] == [];
  }

  lemma {:induction false} TurnsWriteBoth(d: Disk, id: SessionId, p: Path, w1: Writer, w2: Writer, turns: seq<bool>)
    requires Sound(d) && BoundTo(d, id, p) && Due(d, id, w1) && Due(d, id, w2)
    ensures BothWrote(d, TakeTurns(d, id, WritesOf(p, w1), id, WritesOf(p, w2), turns), id, w1, w2)
    decreases |WritesOf(p, w1)| + |WritesOf(p, w2)|
  {
    hide Transcript, EventLog, Sound, Grows, SameView, Due, Perform, Remaining;
    var ws1, ws2 := WritesOf(p, w1), WritesOf(p, w2);
    var rest := if turns == [] then [] else turns[1..];
    if w1.state.None? && w2.state.None? {
      NothingLeft(d, id, w1, w2);
    } else if w2.state.Some? && (w1.state.None? || (turns != [] && turns[0])) {
      WriterStep(d, id, p, w2, w1);
      var mid := Perform(d, id, ws2[0]);
      TurnsWriteBoth(mid, id, p, w1, Next(w2), rest);
      var e := TakeTurns(mid, id, ws1, id, ws2[1..], rest);
      BothWroteSwap(mid, e, id, w1, Next(w2));
      AfterStep(d, mid, e, id, p, w2, w1);
      BothWroteSwap(d, e, id, w2, w1);
    } else {
      WriterStep(d, id, p, w1, w2);
      var mid := Perform(d, id, ws1[0]);
      TurnsWriteBoth(mid, id, p, Next(w1), w2, rest);
      AfterStep(d, mid, TakeTurns(mid, id, ws1[1..], id, ws2, rest), id, p, w1, w2);
    }
  }

  lemma {:induction false} BothWroteSwap(d: Disk, e: Disk, id: SessionId, w1: Writer, w2: Writer)
    requires BothWrote(d, e, id, w1, w2)
    ensures BothWrote(d, e, id, w2, w1)
  {
    hide Transcript, EventLog, Preserves, Merges;
    AddedSwap(Transcript(d, id), Transcript(e, id), w1.messages, w2.messages);
    AddedSwap(EventLog(d, id), EventLog(e, id), w1.events, w2.events);
  }

  /** What is left of a save of a bound session once it is validated. */
  function Validated(d: Disk, id: SessionId, rec: Record): Writer
    requires Prefixes(d, id, rec)
  {
    Writer(rec.messages[|Transcript(d, id)|..], rec.events[|EventLog(d, id)|..], Some(SavedPayload(rec)))
  }

  lemma {:induction false} ValidatedPlan(pathOf: Header -> Path, d: Disk, id: SessionId, rec: Record)
    requires Sound(d) && id in d.refs && Accepted(pathOf, d, id, rec)
    ensures Prefixes(d, id, rec) && Due(d, id, Validated(d, id, rec))
    ensures Plan(pathOf, d, id, rec).writes == WritesOf(d.refs[id], Validated(d, id, rec))
  {
    hide Transcript, EventLog, Plan, Sound;
    SaveAcceptedIffPrefix(pathOf, d, id, rec);
  }

  /** Nothing is added to what the store holds. */
  ghost predicate AddsNothing(d: Disk, id: SessionId, rec: Record) {
    Transcript(d, id) == rec.messages && EventLog(d, id) == rec.events
  }

  /** A history that two writers extended starts one writer's record only if the other added nothing. */
  lemma {:induction false} AddedPrefixIff<T>(before: seq<T>, after: seq<T>, mine: seq<T>, theirs: seq<T>)
    requires before <= mine && before <= theirs && Added(before, after, mine[|before|..], theirs[|before|..])
    ensures after <= mine <==> theirs == before
  {
    var r := after[|before|..];
    MergesAll(r, mine[|before|..], theirs[|before|..]);
    assert after == before + r && mine == before + mine[|before|..];
  }

  /** Two saves of one session, both validated on the same store, their writes interleaved in any way: nobody else
      notices, both histories gain both writers' entries, each writer's in order, and neither save is told. Saving
      again is accepted for a writer if and only if the other one added nothing. */
  lemma {:induction false} RacingSaves(pathOf: Header -> Path, d: Disk, id: SessionId, rec1: Record, rec2: Record,
      turns: seq<bool>)
    requires Sound(d) && id in d.refs && Accepted(pathOf, d, id, rec1) && Accepted(pathOf, d, id, rec2)
    ensures Prefixes(d, id, rec1) && Prefixes(d, id, rec2)
    ensures var e := TakeTurns(d, id, Plan(pathOf, d, id, rec1).writes, id, Plan(pathOf, d, id, rec2).writes, turns);
            && BothWrote(d, e, id, Validated(d, id, rec1), Validated(d, id, rec2))
            && (Accepted(pathOf, e, id, rec1) <==> AddsNothing(d, id, rec2))
            && (Accepted(pathOf, e, id, rec2) <==> AddsNothing(d, id, rec1))
  {
    hide Transcript, EventLog, Plan, Sound, Due, WritesOf, Grows, SameView, Merges;
    ValidatedPlan(pathOf, d, id, rec1);
    ValidatedPlan(pathOf, d, id, rec2);
    var w1, w2 := Validated(d, id, rec1), Validated(d, id, rec2);
    TurnsWriteBoth(d, id, d.refs[id], w1, w2, turns);
    var e := TakeTurns(d, id, Plan(pathOf, d, id, rec1).writes, id, Plan(pathOf, d, id, rec2).writes, turns);
    assert BoundTo(d, id, d.refs[id]);
    BothWroteSwap(d, e, id, w1, w2);
    SaveAcceptedIffPrefix(pathOf, e, id, rec1);
    SaveAcceptedIffPrefix(pathOf, e, id, rec2);
    AddedPrefixIff(Transcript(d, id), Transcript(e, id), rec1.messages, rec2.messages);
    AddedPrefixIff(EventLog(d, id), EventLog(e, id), rec1.events, rec2.events);
    AddedPrefixIff(Transcript(d, id), Transcript(e, id), rec2.messages, rec1.messages);
    AddedPrefixIff(EventLog(d, id), EventLog(e, id), rec2.events, rec1.events);
  }

  /** Racing with oneself stores every new entry twice. */
  lemma {:induction false} RaceDoubles(pathOf: Header -> Path, d: Disk, id: SessionId, rec: Record, turns: seq<bool>)
    requires Sound(d) && id in d.refs && Accepted(pathOf, d, id, rec)
    ensures Prefixes(d, id, rec)
    ensures var ws := Plan(pathOf, d, id, rec).writes;
            var e := TakeTurns(d, id, ws, id, ws, turns);
            && multiset(Transcript(e, id)) ==
               multiset(rec.messages) + multiset(rec.messages[|Transcript(d, id)|..])
            && multiset(EventLog(e, id)) == multiset(rec.events) + multiset(rec.events[|EventLog(d, id)|..])
  {
    hide Transcript, EventLog, Plan, Sound, Due, WritesOf, Grows, SameView, Merges;
    RacingSaves(pathOf, d, id, rec, rec, turns);
    var ws := Plan(pathOf, d, id, rec).writes;
    var e := TakeTurns(d, id, ws, id, ws, turns);
    AddedTwice(Transcript(d, id), Transcript(e, id), rec.messages);
    AddedTwice(EventLog(d, id), EventLog(e, id), rec.events);
  }

  lemma {:induction false} AddedTwice<T>(before: seq<T>, after: seq<T>, all: seq<T>)
    requires before <= all && Added(before, after, all[|before|..], all[|before|..])
    ensures multiset(after) == multiset(all) + multiset(all[|before|..])
  {
    MergesAll(after[|before|..], all[|before|..], all[|before|..]);
    assert after == before + after[|before|..] && all == before + all[|before|..];
  }
}
