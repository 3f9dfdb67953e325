/**
 * Histories of calls: when each took effect, and what a stack or a queue would have done.
 *
 * A container is linearizable if its log is a run of the simple container, every call that has
 * returned took effect once between its start and its end, with the result it returned, that result
 * answers what was asked, and every entry of the log is the effect of exactly one call, returned or
 * still in progress.
 */
module Histories {
  /** What an operation does to the container when it takes effect. */
  datatype Event = Pushed(thread: nat, value: int) | Popped(thread: nat, value: int) | FoundEmpty(thread: nat)

  /** What was asked. A pop that waits does not return without a value. */
  datatype Operation = Push(value: int) | Pop(waits: bool)

  predicate Answers(op: Operation, event: Event) {
    match op
    case Push(v) => event.Pushed? && event.value == v
    case Pop(waits) => event.Popped? || (event.FoundEmpty? && !waits)
  }

  /** A call notes what was asked, how long the log was when it began and where in the log it took effect. */
  datatype Call = NoCall | Begun(op: Operation, since: nat) | Effective(op: Operation, since: nat, at: nat)

  /** A call that has returned; `event` is what it told its caller. */
  datatype Completed = Completed(op: Operation, event: Event, since: nat, at: nat, until: nat)

  function Since(call: Call): nat {
    if call.NoCall? then 0 else call.since
  }

  function Asked(call: Call): Operation {
    if call.NoCall? then Pop(false) else call.op
  }

  // ---------- the simple containers ----------

  datatype Discipline = Stack | Queue

  datatype Replayed = Illegal | Legal(contents: seq<int>)

  function Apply(discipline: Discipline, contents: seq<int>, event: Event): Replayed {
    match event
    case Pushed(_, v) => Legal(if discipline.Stack? then [v] + contents else contents + [v])
    case Popped(_, v) => if contents != [] && contents[0] == v then Legal(contents[1..]) else Illegal
    case FoundEmpty(_) => if contents == [] then Legal([]) else Illegal
  }

  function Replay(discipline: Discipline, log: seq<Event>): Replayed {
    if log == [] then Legal([])
    else
      match Replay(discipline, log[..|log| - 1])
      case Illegal => Illegal
      case Legal(contents) => Apply(discipline, contents, log[|log| - 1])
  }

  lemma {:induction false} ReplayAppend(discipline: Discipline, log: seq<Event>, event: Event)
    ensures Replay(discipline, log + [event]) ==
      match Replay(discipline, log) case Illegal => Illegal case Legal(contents) => Apply(discipline, contents, event)
  {
    assert (log + [event])[..|log|] == log;
  }

  // ---------- calls ----------

  predicate Silent(log: seq<Event>, t: nat, from: nat) {
    from <= |log| && forall i :: from <= i < |log| ==> log[i].thread != t
  }

  /** Between `since` and `until` the thread took effect once, at `at`. */
  predicate Once(log: seq<Event>, t: nat, since: nat, at: nat, until: nat) {
    && since <= at < until <= |log|
    && log[at].thread == t
    && forall i :: since <= i < until && i != at ==> log[i].thread != t
  }

  predicate CompletedOk(log: seq<Event>, c: Completed) {
    Once(log, c.event.thread, c.since, c.at, c.until) && log[c.at] == c.event && Answers(c.op, c.event)
  }

  /** A call in progress: it has not taken effect, or it has, once, as it will report. */
  predicate CallInStep(log: seq<Event>, t: nat, call: Call, effective: bool, report: Event) {
    match call
    case NoCall => false
    case Begun(_, since) => !effective && Silent(log, t, since)
    case Effective(op, since, at) =>
      effective && Once(log, t, since, at, |log|) && log[at] == report && Answers(op, report)
  }

  lemma {:induction false} CompletedKept(log: seq<Event>, event: Event, c: Completed)
    requires CompletedOk(log, c)
    ensures CompletedOk(log + [event], c)
  {
  }

  lemma {:induction false} OtherCallKept(
    log: seq<Event>, event: Event, t: nat, call: Call, effective: bool, report: Event)
    requires CallInStep(log, t, call, effective, report) && event.thread != t
    ensures CallInStep(log + [event], t, call, effective, report)
  {
  }

  lemma {:induction false} TakesEffect(log: seq<Event>, event: Event, call: Call, report: Event)
    requires CallInStep(log, event.thread, call, false, report) && Answers(Asked(call), event)
    ensures CallInStep(log + [event], event.thread, Effective(Asked(call), Since(call), |log|), true, event)
  {
  }

  /** Calls that do not overlap take effect in their order. */
  lemma {:induction false} InRealTime(log: seq<Event>, c: Completed, d: Completed)
    requires CompletedOk(log, c) && CompletedOk(log, d) && c.until <= d.since
    ensures c.at < d.at
  {
  }

  // ---------- whose effect it was ----------

  predicate Takes(call: Call, k: nat) {
    call.Effective? && call.at == k
  }

  /** The entry `k` of a log is the effect of a call that has returned or of one in progress. */
  predicate Owned(calls: seq<Call>, completed: seq<Completed>, k: nat) {
    || (exists i :: 0 <= i < |completed| && completed[i].at == k)
    || (exists t :: 0 <= t < |calls| && Takes(calls[t], k))
  }

  /** Every entry of a log of length `n` is the effect of a call, and no two calls share one. */
  predicate OneToOne(n: nat, calls: seq<Call>, completed: seq<Completed>) {
    && (forall i :: 0 <= i < |completed| ==> completed[i].at < n)
    && (forall t :: 0 <= t < |calls| && calls[t].Effective? ==> calls[t].at < n)
    && (forall i, j :: 0 <= i < j < |completed| ==> completed[i].at != completed[j].at)
    && (forall t, u :: 0 <= t < u < |calls| && calls[t].Effective? ==> !Takes(calls[u], calls[t].at))
    && (forall i, t :: 0 <= i < |completed| && 0 <= t < |calls| ==> !Takes(calls[t], completed[i].at))
    && (forall k: nat :: k < n ==> Owned(calls, completed, k))
  }

  /** How the history goes on when thread `t` moves: not at all, with a new call, with the effect of a
      call that has had none, or with the return of a call that has had its effect. */
  datatype Move = Quiet | Begins(op: Operation, since: nat) | TakesPlace | Returns(c: Completed)

  predicate Moves(
    n: nat, calls: seq<Call>, completed: seq<Completed>,
    n': nat, calls': seq<Call>, completed': seq<Completed>, t: nat, move: Move)
  {
    t < |calls| &&
    match move
    case Quiet => n' == n && calls' == calls && completed' == completed
    case Begins(op, since) =>
      && !calls[t].Effective?
      && n' == n && calls' == calls[t := Begun(op, since)] && completed' == completed
    case TakesPlace =>
      && !calls[t].Effective?
      && n' == n + 1 && completed' == completed
      && calls' == calls[t := Effective(Asked(calls[t]), Since(calls[t]), n)]
    case Returns(c) =>
      && Takes(calls[t], c.at) && c.op == calls[t].op && c.since == calls[t].since
      && n' == n && calls' == calls[t := NoCall] && completed' == completed + [c]
  }

  lemma {:induction false} MoveKeepsOwned(
    n: nat, calls: seq<Call>, completed: seq<Completed>,
    n': nat, calls': seq<Call>, completed': seq<Completed>, t: nat, move: Move, k: nat)
    requires Moves(n, calls, completed, n', calls', completed', t, move)
    requires if k == n then n' == n + 1 else Owned(calls, completed, k)
    ensures Owned(calls', completed', k)
  {
    if k == n && move.TakesPlace? {
      assert Takes(calls'[t], k);
    } else if i :| 0 <= i < |completed| && completed[i].at == k {
      assert completed'[i] == completed[i];
    } else {
      var u :| 0 <= u < |calls| && Takes(calls[u], k);
      if u == t && move.Returns? {
        assert completed'[|completed|].at == k;
      } else {
        assert Takes(calls'[u], k);
      }
    }
  }

  /** Each of these keeps effects and calls one to one. */
  lemma {:induction false} MoveKeepsOneToOne(
    n: nat, calls: seq<Call>, completed: seq<Completed>,
    n': nat, calls': seq<Call>, completed': seq<Completed>, t: nat, move: Move)
    requires OneToOne(n, calls, completed) && Moves(n, calls, completed, n', calls', completed', t, move)
    ensures OneToOne(n', calls', completed')
  {
    hide Owned;
    forall k: nat | k < n' ensures Owned(calls', completed', k) {
      MoveKeepsOwned(n, calls, completed, n', calls', completed', t, move, k);
    }
  }

  /** What the calls that have returned told their callers. */
  function Reports(completed: seq<Completed>): seq<Event> {
    seq(|completed|, i requires 0 <= i < |completed| => completed[i].event)
  }

  function Without<T>(s: seq<T>, i: nat): seq<T>
    requires i < |s|
  {
    s[..i] + s[i + 1..]
  }

  lemma {:induction false} WithoutOne<T>(s: seq<T>, i: nat)
    requires i < |s|
    ensures |Without(s, i)| == |s| - 1 && multiset(s) == multiset(Without(s, i)) + multiset{s[i]}
    ensures forall j: nat :: j < |s| - 1 ==> Without(s, i)[j] == s[if j < i then j else j + 1]
    ensures forall x :: x in s && x != s[i] ==> x in Without(s, i)
  {
    assert s == s[..i] + [s[i]] + s[i + 1..];
  }

  /** Events at different places that leave no place out are all the events. */
  lemma {:induction false} PlacesPermute(log: seq<Event>, events: seq<Event>, places: seq<nat>)
    requires |events| == |places|
    requires forall i :: 0 <= i < |places| ==> places[i] < |log| && events[i] == log[places[i]]
    requires forall i, j :: 0 <= i < j < |places| ==> places[i] != places[j]
    requires forall k: nat :: k < |log| ==> k in places
    ensures multiset(events) == multiset(log)
    decreases |log|
  {
    hide Without;
    assert places == [] || places[0] < |log|;
    if log == [] {
      assert events == [];
    } else {
      var n := |log| - 1;
      assert n in places;
      var i :| 0 <= i < |places| && places[i] == n;
      WithoutOne(events, i);
      WithoutOne(places, i);
      assert log == log[..n] + [log[n]];
      PlacesPermute(log[..n], Without(events, i), Without(places, i));
    }
  }

  /** When no call that has had its effect is still to return, the calls have reported exactly the log. */
  lemma {:induction false} ReportsAreLog(log: seq<Event>, calls: seq<Call>, completed: seq<Completed>)
    requires OneToOne(|log|, calls, completed) && forall t :: 0 <= t < |calls| ==> !calls[t].Effective?
    requires forall i :: 0 <= i < |completed| ==> CompletedOk(log, completed[i])
    ensures multiset(Reports(completed)) == multiset(log)
  {
    var places := seq(|completed|, i requires 0 <= i < |completed| => completed[i].at);
    forall k: nat | k < |log| ensures k in places {
      assert Owned(calls, completed, k);
      if t :| 0 <= t < |calls| && Takes(calls[t], k) {
        assert false;
      }
      var i :| 0 <= i < |completed| && completed[i].at == k;
      assert places[i] == k;
    }
    PlacesPermute(log, Reports(completed), places);
  }

  // ---------- what a legal log says about the values ----------

  function PushedIn(log: seq<Event>): seq<int> {
    if log == [] then []
    else
      var last := log[|log| - 1];
      PushedIn(log[..|log| - 1]) + if last.Pushed? then [last.value] else []
  }

  function PoppedIn(log: seq<Event>): seq<int> {
    if log == [] then []
    else
      var last := log[|log| - 1];
      PoppedIn(log[..|log| - 1]) + if last.Popped? then [last.value] else []
  }

  /** What has been popped from a queue and what is in it are what has been pushed, in that order. */
  lemma {:induction false} QueueInOrder(log: seq<Event>)
    requires Replay(Queue, log).Legal?
    ensures PushedIn(log) == PoppedIn(log) + Replay(Queue, log).contents
    decreases |log|
  {
    if log != [] {
      var before, last := log[..|log| - 1], log[|log| - 1];
      QueueInOrder(before);
      var was := Replay(Queue, before).contents;
      if last.Popped? {
        assert was == [last.value] + was[1..];
      }
    }
  }

  /** What has been popped from a stack and what is in it are what has been pushed. */
  lemma {:induction false} StackLosesNothing(log: seq<Event>)
    requires Replay(Stack, log).Legal?
    ensures multiset(PushedIn(log)) == multiset(PoppedIn(log)) + multiset(Replay(Stack, log).contents)
    decreases |log|
  {
    if log != [] {
      var before, last := log[..|log| - 1], log[|log| - 1];
      StackLosesNothing(before);
      var was := Replay(Stack, before).contents;
      if last.Popped? {
        assert was == [last.value] + was[1..];
      }
    }
  }
}
