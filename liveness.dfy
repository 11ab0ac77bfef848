/**
 * The liveness poll `TerminalWidget.__alive_loopback`, used when the page
 * cannot push a close notification: it asks the page whether the session
 * is alive; on a falsy answer it emits `terminal_closed` and stops, and
 * otherwise it schedules itself again. A run is described by the answers
 * the page gives, in order.
 */
module Liveness {
  import opened Values
  /** What one run of the poll does, step by step. */
  datatype Step = Poll | Close

  /** The steps of a run answered by `replies`, as far as the replies go. */
  function Trace(replies: seq<bool>): seq<Step> {
    if replies == [] then []
    else if !replies[0] then [Poll, Close]
    else [Poll] + Trace(replies[1..])
  }

  /** The number of polls a run makes: up to and including the first false reply. */
  function PollCount(replies: seq<bool>): (n: nat)
    ensures n <= |replies|
    ensures forall i :: 0 <= i < n - 1 ==> replies[i]
    ensures n < |replies| ==> n > 0 && !replies[n - 1]
  {
    if replies == [] then 0
    else if !replies[0] then 1
    else 1 + PollCount(replies[1..])
  }

  /** Whether the run ends by emitting `terminal_closed`. */
  predicate Closes(replies: seq<bool>) {
    false in replies
  }

  function Repeat<T>(x: T, n: nat): (r: seq<T>)
    ensures |r| == n && forall i :: 0 <= i < n ==> r[i] == x
  {
    if n == 0 then [] else [x] + Repeat(x, n - 1)
  }

  function Alive(n: nat): seq<bool> {
    Repeat(true, n)
  }

  /** A run is its polls, followed by one Close exactly when a reply was false. */
  lemma {:induction false} TraceShape(replies: seq<bool>)
    ensures Trace(replies) == Repeat(Poll, PollCount(replies)) + (if Closes(replies) then [Close] else [])
  {
    if replies != [] && replies[0] {
      TraceShape(replies[1..]);
      assert replies == [true] + replies[1..];
      assert false in replies <==> false in replies[1..];
    }
  }

  /**
   * N true replies and then a false one: the run polls N+1 times, then
   * closes once, and nothing follows, whatever later replies would be.
   */
  lemma {:induction false} ClosesAfterNPlusOnePolls(n: nat, later: seq<bool>)
    ensures Trace(Alive(n) + [false] + later) == Repeat(Poll, n + 1) + [Close]
    ensures PollCount(Alive(n) + [false] + later) == n + 1
    ensures Closes(Alive(n) + [false] + later)
  {
    var replies := Alive(n) + [false] + later;
    assert replies[n] == false;
    if n > 0 {
      ClosesAfterNPlusOnePolls(n - 1, later);
      assert replies[1..] == Alive(n - 1) + [false] + later;
      assert Repeat(Poll, n + 1) == [Poll] + Repeat(Poll, n);
    }
  }

  /** While every reply is true the run only polls and never closes. */
  lemma {:induction false} NoCloseWhileAlive(n: nat)
    ensures Trace(Alive(n)) == Repeat(Poll, n)
    ensures PollCount(Alive(n)) == n && !Closes(Alive(n))
  {
    if n > 0 {
      NoCloseWhileAlive(n - 1);
      assert Alive(n)[1..] == Alive(n - 1);
      assert Alive(n) == [true] + Alive(n - 1);
      assert Repeat(Poll, n) == [Poll] + Repeat(Poll, n - 1);
    }
  }

  /** Close is the last step of a run, and appears at most once. */
  lemma CloseIsFinal(replies: seq<bool>, i: nat)
    requires i < |Trace(replies)| && Trace(replies)[i] == Close
    ensures i == |Trace(replies)| - 1
  {
    TraceShape(replies);
  }

  /**
   * As written, `is_alive` returns what `eval_javascript` returns, which is
   * nothing: the poll sees `None`, a falsy value, whatever the page answers.
   */
  function SeenAsWritten(replies: seq<bool>): seq<bool> {
    seq(|replies|, _ => Truthy(PyNone))
  }

  /** So the poll as written closes at its first poll, even while the session is alive. */
  lemma AsWrittenClosesAtFirstPoll(replies: seq<bool>)
    requires replies != []
    ensures Trace(SeenAsWritten(replies)) == [Poll, Close]
    ensures Trace(replies) != [Poll, Close] <==> replies[0]
  {
    if replies[0] {
      var rest := Trace(replies[1..]);
      assert Trace(replies) == [Poll] + rest;
      if rest != [] {
        assert rest[0] == Poll;
        assert Trace(replies)[1] == Poll;
      }
    }
  }

  /**
   * Where a run that has made `polls` polls stops: at the first false
   * reply if it has seen one, otherwise at the end of the replies.
   */
  lemma PollCountStops(replies: seq<bool>, polls: nat, closed: bool)
    requires polls <= |replies|
    requires forall j :: 0 <= j < polls - 1 ==> replies[j]
    requires closed ==> polls > 0 && !replies[polls - 1]
    requires !closed ==> polls == |replies| && forall j :: 0 <= j < polls ==> replies[j]
    ensures PollCount(replies) == polls && Closes(replies) == closed
  {
  }
}
