/** The bump of a user's `token_version`, statement by statement: a request reads the user, and later commits the
    version it read plus one. Nothing locks the row in between and nothing looks at it again. */
module VersionRace {
  type RequestId = nat

  datatype Event = Read(request: RequestId) | Write(request: RequestId)

  datatype State = State(version: nat, read: map<RequestId, nat>, written: set<RequestId>)

  /** A request reads once, and writes at most once, after its read. */
  predicate Enabled(st: State, e: Event)
  {
    match e
    case Read(b) => b !in st.read
    case Write(b) => b in st.read && b !in st.written
  }

  function After(st: State, e: Event): State
  {
    match e
    case Read(b) => st.(read := st.read[b := st.version])
    case Write(b) =>
      if b in st.read then st.(version := st.read[b] + 1, written := st.written + {b}) else st
  }

  /** The state after the first n events. */
  function At(start: nat, es: seq<Event>, n: nat): State
    requires n <= |es|
  {
    if n == 0 then State(start, map[], {}) else After(At(start, es, n - 1), es[n - 1])
  }

  predicate RunTo(start: nat, es: seq<Event>, n: nat)
    requires n <= |es|
  {
    n == 0 || (RunTo(start, es, n - 1) && Enabled(At(start, es, n - 1), es[n - 1]))
  }

  predicate Run(start: nat, es: seq<Event>) { RunTo(start, es, |es|) }

  function Version(start: nat, es: seq<Event>, n: nat): nat
    requires n <= |es|
  {
    At(start, es, n).version
  }

  /** An access token names the version its request read, so one read at p is accepted at q just if they agree. */
  predicate Accepted(start: nat, es: seq<Event>, p: nat, q: nat)
    requires p <= q <= |es|
  {
    Version(start, es, p) == Version(start, es, q)
  }

  /** How many of the first n events are version writes. */
  function Writes(es: seq<Event>, n: nat): nat
    requires n <= |es|
  {
    if n == 0 then 0 else Writes(es, n - 1) + if es[n - 1].Write? then 1 else 0
  }

  /** Another version write falls between the read at i and the write at j of one request. */
  predicate Overlapped(es: seq<Event>, i: nat, j: nat)
    requires i < j < |es|
  {
    es[i].Read? && es[j] == Write(es[i].request) && Writes(es, j) != Writes(es, i)
  }

  predicate Clean(es: seq<Event>, n: nat)
    requires n <= |es|
  {
    forall i: nat, j: nat :: i < j < n ==> !Overlapped(es, i, j)
  }

  lemma {:induction false} RunToEarlier(start: nat, es: seq<Event>, m: nat, n: nat)
    requires m <= n <= |es| && RunTo(start, es, n)
    ensures RunTo(start, es, m)
    decreases n
  {
    if m < n { RunToEarlier(start, es, m, n - 1); }
  }

  lemma {:induction false} WritesMonotone(es: seq<Event>, p: nat, q: nat)
    requires p <= q <= |es|
    ensures Writes(es, p) <= Writes(es, q)
    decreases q
  {
    if p < q { WritesMonotone(es, p, q - 1); }
  }

  /** The count goes up in steps of one, so it meets every value on the way. */
  lemma {:induction false} WritesReach(es: seq<Event>, p: nat, q: nat, count: nat) returns (m: nat)
    requires p <= q <= |es| && Writes(es, p) <= count <= Writes(es, q)
    ensures p <= m <= q && Writes(es, m) == count
    decreases q
  {
    if Writes(es, q) == count {
      m := q;
    } else {
      m := WritesReach(es, p, q - 1, count);
    }
  }

  lemma ReadStays(st: State, e: Event, b: RequestId)
    requires b in st.read && Enabled(st, e)
    ensures b in After(st, e).read && After(st, e).read[b] == st.read[b]
  {
  }

  lemma {:induction false} ReadIsRemembered(start: nat, es: seq<Event>, i: nat, n: nat)
    requires i < n <= |es| && RunTo(start, es, n) && es[i].Read?
    ensures var st := At(start, es, n); es[i].request in st.read && st.read[es[i].request] == Version(start, es, i)
    decreases n
  {
    if i < n - 1 {
      ReadIsRemembered(start, es, i, n - 1);
      ReadStays(At(start, es, n - 1), es[n - 1], es[i].request);
    }
  }

  lemma {:induction false} WrittenWasRead(start: nat, es: seq<Event>, b: RequestId, n: nat) returns (i: nat)
    requires n <= |es| && b in At(start, es, n).read
    ensures i < n && es[i] == Read(b)
    decreases n
  {
    if es[n - 1] == Read(b) {
      i := n - 1;
    } else {
      i := WrittenWasRead(start, es, b, n - 1);
    }
  }

  lemma {:induction false} StaysWritten(start: nat, es: seq<Event>, i: nat, n: nat)
    requires i < n <= |es| && RunTo(start, es, n) && es[i].Write?
    ensures es[i].request in At(start, es, n).written
    decreases n
  {
    if i < n - 1 { StaysWritten(start, es, i, n - 1); }
  }

  /** No request writes twice. */
  lemma WritesOnce(start: nat, es: seq<Event>, i: nat, j: nat)
    requires i < j < |es| && RunTo(start, es, j + 1) && es[i].Write? && es[j].Write?
    ensures es[i].request != es[j].request
  {
    StaysWritten(start, es, i, j);
  }

  lemma WriteAddsOneToItsRead(start: nat, es: seq<Event>, i: nat, j: nat)
    requires i < j < |es| && RunTo(start, es, j) && es[i].Read? && es[j] == Write(es[i].request)
    ensures Version(start, es, j + 1) == Version(start, es, i) + 1
  {
    ReadIsRemembered(start, es, i, j);
  }

  /** Without overlap the version counts the writes. */
  lemma {:induction false} CleanCounts(start: nat, es: seq<Event>, n: nat)
    requires n <= |es| && RunTo(start, es, n) && Clean(es, n)
    ensures Version(start, es, n) == start + Writes(es, n)
    decreases n
  {
    if n > 0 {
      CleanCounts(start, es, n - 1);
      if es[n - 1].Write? {
        var i := WrittenWasRead(start, es, es[n - 1].request, n - 1);
        RunToEarlier(start, es, i, n);
        CleanCounts(start, es, i);
        WriteAddsOneToItsRead(start, es, i, n - 1);
        assert !Overlapped(es, i, n - 1);
      }
    }
  }

  /** One securing request, everything before its write being clean: what it accepts afterwards are the tokens
      read under the first other version write since its own read, if there was one; the version moves by one
      less for each of those writes. */
  lemma AcceptedAfterwardsExactly(start: nat, es: seq<Event>, i: nat, j: nat, p: nat)
    requires i < j < |es| && RunTo(start, es, j) && es[i].Read? && es[j] == Write(es[i].request) && Clean(es, j)
    requires p <= j
    ensures Accepted(start, es, p, j + 1) <==> Writes(es, p) == Writes(es, i) + 1
    ensures Version(start, es, j + 1) == Version(start, es, j) + 1 - (Writes(es, j) - Writes(es, i))
  {
    WriteAddsOneToItsRead(start, es, i, j);
    RunToEarlier(start, es, i, j);
    RunToEarlier(start, es, p, j);
    CleanCounts(start, es, i);
    CleanCounts(start, es, j);
    CleanCounts(start, es, p);
  }

  /** The write at j ends every token from before it. */
  ghost predicate EndsAll(start: nat, es: seq<Event>, j: nat)
    requires j < |es|
  {
    forall p: nat :: p <= j ==> Version(start, es, p) != Version(start, es, j + 1)
  }

  /** So it ends every token from before it exactly if no other version write came in between. */
  lemma EndsEveryTokenExactly(start: nat, es: seq<Event>, i: nat, j: nat)
    requires i < j < |es| && RunTo(start, es, j) && es[i].Read? && es[j] == Write(es[i].request) && Clean(es, j)
    ensures EndsAll(start, es, j) <==> Writes(es, j) == Writes(es, i)
  {
    WritesMonotone(es, i, j);
    if Writes(es, j) == Writes(es, i) {
      forall p: nat | p <= j ensures Version(start, es, p) != Version(start, es, j + 1) {
        WritesMonotone(es, p, j);
        AcceptedAfterwardsExactly(start, es, i, j, p);
      }
    } else {
      var p := WritesReach(es, i, j, Writes(es, i) + 1);
      AcceptedAfterwardsExactly(start, es, i, j, p);
    }
  }

  /** No token outlives a version write, at any distance. */
  ghost predicate NoTokenOutlives(start: nat, es: seq<Event>)
  {
    forall p: nat, q: nat :: p <= q <= |es| && Accepted(start, es, p, q) ==> Writes(es, p) == Writes(es, q)
  }

  lemma {:induction false} FirstOverlap(es: seq<Event>, n: nat) returns (i: nat, j: nat)
    requires n <= |es| && !Clean(es, n)
    ensures i < j < n && Overlapped(es, i, j) && Clean(es, j)
    decreases n
  {
    if Clean(es, n - 1) {
      i, j :| i < j < n && Overlapped(es, i, j);
    } else {
      i, j := FirstOverlap(es, n - 1);
    }
  }

  /** For whole runs: every version write ends, for good, all tokens read before it, exactly if no version write
      ever falls between another request's read and its write. */
  lemma TokensEndExactly(start: nat, es: seq<Event>)
    requires Run(start, es)
    ensures NoTokenOutlives(start, es) <==> Clean(es, |es|)
  {
    if Clean(es, |es|) {
      forall p: nat, q: nat | p <= q <= |es| && Accepted(start, es, p, q) ensures Writes(es, p) == Writes(es, q) {
        RunToEarlier(start, es, p, |es|);
        RunToEarlier(start, es, q, |es|);
        CleanCounts(start, es, p);
        CleanCounts(start, es, q);
      }
    } else {
      var i, j := FirstOverlap(es, |es|);
      RunToEarlier(start, es, j, |es|);
      WritesMonotone(es, i, j);
      var p := WritesReach(es, i, j, Writes(es, i) + 1);
      AcceptedAfterwardsExactly(start, es, i, j, p);
      WritesMonotone(es, p, j);
      assert Accepted(start, es, p, j + 1);
    }
  }

  // ---- Two runs ---------------------------------------------------------------------------

  lemma Next(start: nat, es: seq<Event>, n: nat)
    requires n < |es| && RunTo(start, es, n) && Enabled(At(start, es, n), es[n])
    ensures RunTo(start, es, n + 1) && At(start, es, n + 1) == After(At(start, es, n), es[n])
  {
  }

  /** A password change reads the user; a reset reads and commits; then the change commits. */
  const LOST_BUMP := [Read(1), Read(2), Write(2), Write(1)]

  /** The token a login reads after the reset is still accepted after the change. */
  lemma LostBump()
    ensures Run(5, LOST_BUMP)
    ensures Version(5, LOST_BUMP, 3) == 6 && Version(5, LOST_BUMP, 4) == 6 && Accepted(5, LOST_BUMP, 3, 4)
  {
    Next(5, LOST_BUMP, 0);
    Next(5, LOST_BUMP, 1);
    Next(5, LOST_BUMP, 2);
    Next(5, LOST_BUMP, 3);
  }

  /** A third request reads and commits before the change does. */
  const BACKWARDS := [Read(1), Read(2), Write(2), Read(3), Write(3), Write(1)]

  /** The version goes back, and a token already ended is accepted again. */
  lemma VersionGoesBack()
    ensures Run(5, BACKWARDS) && Version(5, BACKWARDS, 6) < Version(5, BACKWARDS, 5)
    ensures !Accepted(5, BACKWARDS, 3, 5) && Accepted(5, BACKWARDS, 3, 6)
  {
    Next(5, BACKWARDS, 0);
    Next(5, BACKWARDS, 1);
    Next(5, BACKWARDS, 2);
    Next(5, BACKWARDS, 3);
    Next(5, BACKWARDS, 4);
    Next(5, BACKWARDS, 5);
  }
}
