/** The live monitor of a running test (admin-platform/app/dashboard/monitor/page.tsx):
    the countdown, starting and pausing the test, removing a participant,
    and the summary figures (average progress and the status counts). */
module Monitor {
  import opened Common

  datatype Participant = Participant(id: int, name: string, email: string, status: string, progress: int)

  // ---------------------------------------------------------------------
  // Participants

  /** `prev.filter(p => p.id !== id)`. */
  function RemoveById(ps: seq<Participant>, id: int): (r: seq<Participant>)
    ensures forall p :: p in r ==> p in ps && p.id != id
    ensures forall p :: p in ps && p.id != id ==> p in r
    ensures |r| <= |ps|
  {
    if ps == [] then []
    else if ps[0].id == id then RemoveById(ps[1..], id)
    else [ps[0]] + RemoveById(ps[1..], id)
  }

  /** Removing keeps the remaining participants in their order: it
      distributes over concatenation. */
  lemma {:induction false} RemoveByIdAppend(a: seq<Participant>, b: seq<Participant>, id: int)
    ensures RemoveById(a + b, id) == RemoveById(a, id) + RemoveById(b, id)
  {
    if a == [] {
      assert a + b == b;
    } else {
      assert (a + b)[0] == a[0];
      assert (a + b)[1..] == a[1..] + b;
      RemoveByIdAppend(a[1..], b, id);
      if a[0].id != id {
        assert [a[0]] + (RemoveById(a[1..], id) + RemoveById(b, id)) == [a[0]] + RemoveById(a[1..], id) + RemoveById(b, id);
      }
    }
  }

  /** The sum of the participants' progress. */
  function SumProgress(ps: seq<Participant>): int {
    if ps == [] then 0 else ps[0].progress + SumProgress(ps[1..])
  }

  /** `Math.round(sum / n)`, or 0 with no participant. For a positive count
      `Math.round(x) = floor(x + 1/2)`, which on the fraction `sum / n` is
      `floor((2 sum + n) / (2 n))`. */
  function AverageProgress(ps: seq<Participant>): (r: int)
    ensures |ps| == 0 ==> r == 0
    ensures |ps| > 0 ==>
      -|ps| < 2 * |ps| * r - 2 * SumProgress(ps) <= |ps|
  {
    if |ps| == 0 then 0
    else
      var n := |ps|;
      var r := (2 * SumProgress(ps) + n) / (2 * n);
      RoundBounds(2 * SumProgress(ps) + n, 2 * n, r);
      r
  }

  /** The defining bounds of floor division by a positive number. */
  lemma RoundBounds(a: int, d: int, q: int)
    requires d > 0 && q == a / d
    ensures d * q <= a < d * q + d
  {
  }

  /** The sum lies between `n` times a lower and `n` times an upper bound
      of the progress values. */
  lemma {:induction false} SumBounds(ps: seq<Participant>, lo: int, hi: int)
    requires forall p :: p in ps ==> lo <= p.progress <= hi
    ensures |ps| * lo <= SumProgress(ps) <= |ps| * hi
  {
    if ps != [] {
      assert forall p :: p in ps[1..] ==> p in ps;
      assert ps[0] in ps;
      SumBounds(ps[1..], lo, hi);
      MultiplySucc(|ps| - 1, lo);
      MultiplySucc(|ps| - 1, hi);
    }
  }

  /** The average lies between any lower and upper bound of the progress
      values, hence between the minimum and the maximum progress. */
  lemma AverageWithinBounds(ps: seq<Participant>, lo: int, hi: int)
    requires |ps| > 0
    requires forall p :: p in ps ==> lo <= p.progress <= hi
    ensures lo <= AverageProgress(ps) <= hi
  {
    var n, s, r := |ps|, SumProgress(ps), AverageProgress(ps);
    SumBounds(ps, lo, hi);
    BetweenMultiples(n, s, r, lo, hi);
  }

  /** If `-n < 2nr - 2s <= n` and `n lo <= s <= n hi` then `lo <= r <= hi`. */
  lemma BetweenMultiples(n: int, s: int, r: int, lo: int, hi: int)
    requires n > 0 && -n < 2 * n * r - 2 * s <= n
    requires n * lo <= s <= n * hi
    ensures lo <= r <= hi
  {
    OddMultiple(n, r, lo);
    PositiveFactor(n, 2 * (r - lo) + 1);
    OddMultiple(n, hi, r);
    PositiveFactor(n, 2 * (hi - r) + 1);
  }

  lemma OddMultiple(n: int, a: int, b: int)
    ensures n * (2 * (a - b) + 1) == 2 * n * a - 2 * (n * b) + n
    ensures 2 * n * a == 2 * (n * a)
  {
  }

  lemma MultiplySucc(m: int, x: int)
    ensures (m + 1) * x == m * x + x
  {
  }

  /** The number of participants with a given status. */
  function CountStatus(ps: seq<Participant>, status: string): (c: nat)
    ensures c <= |ps|
  {
    if ps == [] then 0 else (if ps[0].status == status then 1 else 0) + CountStatus(ps[1..], status)
  }

  /** The active, idle and left counts together never exceed the number of
      participants. */
  lemma {:induction false} StatusCountsBounded(ps: seq<Participant>)
    ensures CountStatus(ps, "active") + CountStatus(ps, "idle") + CountStatus(ps, "left") <= |ps|
  {
    if ps != [] {
      StatusCountsBounded(ps[1..]);
    }
  }

  // ---------------------------------------------------------------------
  // The page's state

  class TestMonitor {
    var participants: seq<Participant>
    var testStarted: bool
    var testPaused: bool
    var testDuration: int
    var timeRemaining: int
    var testCompleted: bool
    var isLoading: bool
    var removeDialogOpen: bool
    var selectedParticipant: Option<int>
    /** The durations captured by start clicks whose timeout has not fired
        yet, oldest first: each timeout uses the duration of its own click. */
    var pendingStarts: seq<int>

    /** The countdown interval is installed only in this state. */
    predicate Running()
      reads this
    {
      testStarted && !testPaused && timeRemaining > 0
    }

    constructor ()
      ensures participants == [] && !testStarted && !testPaused && !testCompleted && !isLoading
      ensures testDuration == 60 && timeRemaining == 3600
      ensures !removeDialogOpen && selectedParticipant == None && pendingStarts == []
    {
      participants := [];
      testStarted, testPaused, testCompleted, isLoading := false, false, false, false;
      testDuration := 60;
      timeRemaining := 60 * 60;
      removeDialogOpen := false;
      selectedParticipant := None;
      pendingStarts := [];
    }

    /** One firing of the countdown interval. */
    method Tick()
      requires Running()
      modifies this
      ensures timeRemaining == CountdownStep(old(timeRemaining))
      ensures testCompleted == (old(testCompleted) || old(timeRemaining) <= 1)
      ensures participants == old(participants) && testStarted == old(testStarted) && testPaused == old(testPaused)
      ensures testDuration == old(testDuration) && isLoading == old(isLoading)
      ensures removeDialogOpen == old(removeDialogOpen) && selectedParticipant == old(selectedParticipant)
      ensures pendingStarts == old(pendingStarts)
    {
      if timeRemaining <= 1 {
        testCompleted := true;
        timeRemaining := 0;
      } else {
        timeRemaining := timeRemaining - 1;
      }
    }

    /** The duration slider, which is disabled once the test has started. */
    method SetDuration(minutes: int)
      requires !testStarted
      modifies this
      ensures testDuration == minutes
      ensures participants == old(participants) && testStarted == old(testStarted) && testPaused == old(testPaused)
      ensures timeRemaining == old(timeRemaining) && testCompleted == old(testCompleted) && isLoading == old(isLoading)
      ensures removeDialogOpen == old(removeDialogOpen) && selectedParticipant == old(selectedParticipant)
      ensures pendingStarts == old(pendingStarts)
    {
      testDuration := minutes;
    }

    /** `handleStartTest`, first half: the page shows that it is loading, and
        the timeout it schedules captures the current duration. */
    method StartTest()
      modifies this
      ensures isLoading && pendingStarts == old(pendingStarts) + [old(testDuration)]
      ensures participants == old(participants) && testStarted == old(testStarted) && testPaused == old(testPaused)
      ensures testDuration == old(testDuration) && timeRemaining == old(timeRemaining) && testCompleted == old(testCompleted)
      ensures removeDialogOpen == old(removeDialogOpen) && selectedParticipant == old(selectedParticipant)
    {
      isLoading := true;
      pendingStarts := pendingStarts + [testDuration];
    }

    /** `handleStartTest`, second half, when the oldest pending timeout
        fires: the test runs with the duration captured at that click on the
        clock, whatever the slider shows now. */
    method StartTimeoutFires()
      requires |pendingStarts| > 0
      modifies this
      ensures testStarted && !isLoading && timeRemaining == old(pendingStarts[0]) * 60
      ensures pendingStarts == old(pendingStarts[1..])
      ensures participants == old(participants) && testPaused == old(testPaused)
      ensures testDuration == old(testDuration) && testCompleted == old(testCompleted)
      ensures removeDialogOpen == old(removeDialogOpen) && selectedParticipant == old(selectedParticipant)
    {
      testStarted := true;
      timeRemaining := pendingStarts[0] * 60;
      pendingStarts := pendingStarts[1..];
      isLoading := false;
    }

    /** `handlePauseResumeTest`. */
    method PauseResume()
      modifies this
      ensures testPaused == !old(testPaused)
      ensures participants == old(participants) && testStarted == old(testStarted)
      ensures testDuration == old(testDuration) && timeRemaining == old(timeRemaining) && testCompleted == old(testCompleted)
      ensures isLoading == old(isLoading)
      ensures removeDialogOpen == old(removeDialogOpen) && selectedParticipant == old(selectedParticipant)
      ensures pendingStarts == old(pendingStarts)
    {
      testPaused := !testPaused;
    }

    /** `handleRemoveParticipant`: selects the participant and asks for
        confirmation. */
    method RemoveParticipant(id: int)
      modifies this
      ensures selectedParticipant == Some(id) && removeDialogOpen
      ensures participants == old(participants) && testStarted == old(testStarted) && testPaused == old(testPaused)
      ensures testDuration == old(testDuration) && timeRemaining == old(timeRemaining)
      ensures testCompleted == old(testCompleted) && isLoading == old(isLoading)
      ensures pendingStarts == old(pendingStarts)
    {
      selectedParticipant := Some(id);
      removeDialogOpen := true;
    }

    /** `confirmRemoveParticipant`: a truthy selection (present and not 0)
        removes every participant with that id; the selection is then
        cleared and the dialog closed. */
    method ConfirmRemove()
      modifies this
      ensures old(selectedParticipant).Some? && old(selectedParticipant).value != 0 ==>
        participants == RemoveById(old(participants), old(selectedParticipant).value)
      ensures !(old(selectedParticipant).Some? && old(selectedParticipant).value != 0) ==>
        participants == old(participants)
      ensures selectedParticipant == None && !removeDialogOpen
      ensures testStarted == old(testStarted) && testPaused == old(testPaused)
      ensures testDuration == old(testDuration) && timeRemaining == old(timeRemaining)
      ensures testCompleted == old(testCompleted) && isLoading == old(isLoading)
      ensures pendingStarts == old(pendingStarts)
    {
      if selectedParticipant.Some? && selectedParticipant.value != 0 {
        participants := RemoveById(participants, selectedParticipant.value);
      }
      removeDialogOpen := false;
      selectedParticipant := None;
    }
  }

  /** Moving the slider while the start is loading does not change the time
      put on the clock: a fresh page started at its default 60 minutes gets
      3600 seconds even if the slider is set to `minutes` in between. */
  method StartWhileSliding(minutes: int) returns (clock: int)
    ensures clock == 3600
  {
    var page := new TestMonitor();
    page.StartTest();
    page.SetDuration(minutes);
    page.StartTimeoutFires();
    clock := page.timeRemaining;
  }
}
