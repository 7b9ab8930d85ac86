/** The best-effort window search both engines run six times over: every
    start index i, every end index j > i in increasing order, the inner loop
    left with `break` once the window's defining metric has passed the band,
    and a running maximum that starts at 0 and moves only on a strictly
    greater VAM. What varies between the searches is what one window is
    worth, supplied here as a function of (i, j). */
module WindowScan {
  import opened Common

  /** What the inner loop body learns about window (i, j): whether it is
      accepted (band and guards), its unrounded VAM, whether the `break`
      fires after it, and the record kept if it becomes the best. */
  datatype Window = Window(qualifies: bool, vam: real, stop: bool, record: Effort)

  type Windows = (nat, nat) -> Window

  /** Window (a, b) is reached: no earlier end index of row a broke the inner loop. */
  ghost predicate Reached(w: Windows, a: nat, b: nat) {
    forall k: nat :: a < k < b ==> !w(a, k).stop
  }

  /** Window (a, b) is scanned and accepted. */
  ghost predicate Candidate(n: nat, w: Windows, a: nat, b: nat) {
    a < b < n && Reached(w, a, b) && w(a, b).qualifies
  }

  /** (a, b) comes before (c, d) in the scan order of the two loops. */
  predicate Earlier(a: nat, b: nat, c: nat, d: nat) {
    a < c || (a == c && b < d)
  }

  /** (a, b) is the search's answer: an accepted window with positive VAM,
      no accepted window beats it, and every accepted window scanned before
      it is strictly worse (ties keep the first). */
  ghost predicate IsBest(n: nat, w: Windows, a: nat, b: nat) {
    && Candidate(n, w, a, b)
    && w(a, b).vam > 0.0
    && (forall c: nat, d: nat :: Candidate(n, w, c, d) ==> w(c, d).vam <= w(a, b).vam)
    && (forall c: nat, d: nat :: Candidate(n, w, c, d) && Earlier(c, d, a, b) ==> w(c, d).vam < w(a, b).vam)
  }

  /** No accepted window has a positive VAM, so the running maximum never moves. */
  ghost predicate NoneFound(n: nat, w: Windows) {
    forall a: nat, b: nat :: Candidate(n, w, a, b) ==> w(a, b).vam <= 0.0
  }

  /** The loop state (i, j, maxVAM, bestEffort) before window (i, j) is looked at. */
  ghost predicate ScanInvariant(n: nat, w: Windows, i: nat, j: nat, maxVam: real, best: Option<Span>) {
    && (i < n ==> i < j && forall k: nat :: i < k < j ==> !w(i, k).stop)
    && maxVam >= 0.0
    && (forall a: nat, b: nat :: Candidate(n, w, a, b) && Earlier(a, b, i, j) ==> w(a, b).vam <= maxVam)
    && (best.None? ==> maxVam == 0.0)
    && (best.Some? ==>
          var s := best.value;
          && Candidate(n, w, s.startIdx, s.endIdx)
          && Earlier(s.startIdx, s.endIdx, i, j)
          && w(s.startIdx, s.endIdx).vam == maxVam
          && maxVam > 0.0
          && forall a: nat, b: nat :: Candidate(n, w, a, b) && Earlier(a, b, s.startIdx, s.endIdx) ==> w(a, b).vam < maxVam)
  }

  /** The two nested loops, one window per call: look at (i, j), keep it if
      it is accepted and strictly beats the running maximum, then either
      break to row i + 1 or go on to j + 1. */
  function ScanFrom(n: nat, w: Windows, i: nat, j: nat, maxVam: real, best: Option<Span>): (r: Option<Span>)
    requires ScanInvariant(n, w, i, j, maxVam, best)
    ensures r.None? ==> NoneFound(n, w)
    ensures r.Some? ==> IsBest(n, w, r.value.startIdx, r.value.endIdx)
    decreases n - i, n - j
  {
    if i >= n then
      best
    else if j >= n then
      InvariantAfterRow(n, w, i, j, maxVam, best);
      ScanFrom(n, w, i + 1, i + 2, maxVam, best)
    else
      var win := w(i, j);
      var improves := win.qualifies && win.vam > maxVam;
      var maxVam' := if improves then win.vam else maxVam;
      var best' := if improves then Some(Span(i, j)) else best;
      InvariantAfterWindow(n, w, i, j, maxVam, best);
      if win.stop then
        ScanFrom(n, w, i + 1, i + 2, maxVam', best')
      else
        ScanFrom(n, w, i, j + 1, maxVam', best')
  }

  /** Looking at window (i, j) keeps the invariant, whether the loop breaks
      to the next row or goes on along this one. */
  lemma InvariantAfterWindow(n: nat, w: Windows, i: nat, j: nat, maxVam: real, best: Option<Span>)
    requires i < j < n && ScanInvariant(n, w, i, j, maxVam, best)
    ensures var win := w(i, j);
            var improves := win.qualifies && win.vam > maxVam;
            var maxVam' := if improves then win.vam else maxVam;
            var best' := if improves then Some(Span(i, j)) else best;
            && (win.stop ==> ScanInvariant(n, w, i + 1, i + 2, maxVam', best'))
            && (!win.stop ==> ScanInvariant(n, w, i, j + 1, maxVam', best'))
  {
  }

  /** Running off the end of row i keeps the invariant for row i + 1. */
  lemma InvariantAfterRow(n: nat, w: Windows, i: nat, j: nat, maxVam: real, best: Option<Span>)
    requires i < n <= j && ScanInvariant(n, w, i, j, maxVam, best)
    ensures ScanInvariant(n, w, i + 1, i + 2, maxVam, best)
  {
  }

  /** The whole search over n samples, from maxVAM = 0 and no best effort. */
  function Scan(n: nat, w: Windows): (r: Option<Span>)
    ensures r.None? <==> NoneFound(n, w)
    ensures r.Some? ==> IsBest(n, w, r.value.startIdx, r.value.endIdx)
  {
    ScanFrom(n, w, 0, 1, 0.0, None)
  }

  /** A search with exactly one accepted window, scanned and of positive
      VAM, answers with that window. */
  lemma SoleCandidateIsBest(n: nat, w: Windows, a: nat, b: nat)
    requires Candidate(n, w, a, b) && w(a, b).vam > 0.0
    requires forall c: nat, d: nat :: c < d < n && w(c, d).qualifies ==> c == a && d == b
    ensures Scan(n, w) == Some(Span(a, b))
  {
    var r := Scan(n, w);
    assert !NoneFound(n, w);
    assert Candidate(n, w, r.value.startIdx, r.value.endIdx);
  }

  /** The running maximum after looking at window (i, j). */
  function MaxAfter(w: Windows, i: nat, j: nat, maxVam: real): real {
    var win := w(i, j);
    if win.qualifies && win.vam > maxVam then win.vam else maxVam
  }

  /** The best window so far after looking at window (i, j). */
  function BestAfter(w: Windows, i: nat, j: nat, maxVam: real, best: Option<Span>): Option<Span> {
    var win := w(i, j);
    if win.qualifies && win.vam > maxVam then Some(Span(i, j)) else best
  }

  /** One pass of the inner loop body that ends in the break. */
  lemma ScanStepBreak(n: nat, w: Windows, i: nat, j: nat, maxVam: real, best: Option<Span>)
    requires i < j < n && ScanInvariant(n, w, i, j, maxVam, best) && w(i, j).stop
    ensures ScanInvariant(n, w, i + 1, i + 2, MaxAfter(w, i, j, maxVam), BestAfter(w, i, j, maxVam, best))
    ensures ScanFrom(n, w, i, j, maxVam, best) == ScanFrom(n, w, i + 1, i + 2, MaxAfter(w, i, j, maxVam), BestAfter(w, i, j, maxVam, best))
  {
    InvariantAfterWindow(n, w, i, j, maxVam, best);
  }

  /** One pass of the inner loop body that goes on along the row. */
  lemma ScanStepOn(n: nat, w: Windows, i: nat, j: nat, maxVam: real, best: Option<Span>)
    requires i < j < n && ScanInvariant(n, w, i, j, maxVam, best) && !w(i, j).stop
    ensures ScanInvariant(n, w, i, j + 1, MaxAfter(w, i, j, maxVam), BestAfter(w, i, j, maxVam, best))
    ensures ScanFrom(n, w, i, j, maxVam, best) == ScanFrom(n, w, i, j + 1, MaxAfter(w, i, j, maxVam), BestAfter(w, i, j, maxVam, best))
  {
    InvariantAfterWindow(n, w, i, j, maxVam, best);
  }

  /** The inner loop running off the end of row i. */
  lemma ScanRowEnd(n: nat, w: Windows, i: nat, j: nat, maxVam: real, best: Option<Span>)
    requires i < n <= j && ScanInvariant(n, w, i, j, maxVam, best)
    ensures ScanInvariant(n, w, i + 1, i + 2, maxVam, best)
    ensures ScanFrom(n, w, i, j, maxVam, best) == ScanFrom(n, w, i + 1, i + 2, maxVam, best)
  {
    InvariantAfterRow(n, w, i, j, maxVam, best);
  }

  /** The inner loop for row i: from j = i + 1, keep the windows that
      strictly beat maxVAM, and stop at the end of the row or at the break. */
  method ScanRow(n: nat, w: Windows, i: nat, maxVam: real, best: Option<Span>) returns (maxVam': real, best': Option<Span>)
    requires i < n && ScanInvariant(n, w, i, i + 1, maxVam, best)
    ensures ScanInvariant(n, w, i + 1, i + 2, maxVam', best')
    ensures ScanFrom(n, w, i + 1, i + 2, maxVam', best') == ScanFrom(n, w, i, i + 1, maxVam, best)
  {
    maxVam', best' := maxVam, best;
    var j: nat := i + 1;
    while j < n
      invariant i < j
      invariant ScanInvariant(n, w, i, j, maxVam', best')
      invariant ScanFrom(n, w, i, j, maxVam', best') == ScanFrom(n, w, i, i + 1, maxVam, best)
    {
      var win := w(i, j);
      if win.stop {
        ScanStepBreak(n, w, i, j, maxVam', best');
        return MaxAfter(w, i, j, maxVam'), BestAfter(w, i, j, maxVam', best');
      }
      ScanStepOn(n, w, i, j, maxVam', best');
      maxVam', best' := MaxAfter(w, i, j, maxVam'), BestAfter(w, i, j, maxVam', best');
      j := j + 1;
    }
    ScanRowEnd(n, w, i, j, maxVam', best');
  }

  /** The two loops as written: for each i, for each j > i, keep window
      (i, j) if it is accepted and strictly beats maxVAM, and leave the inner
      loop once the break condition holds. The loops compute exactly Scan. */
  method ScanLoops(n: nat, w: Windows) returns (best: Option<Span>, maxVam: real)
    ensures best == Scan(n, w)
    ensures best.None? ==> maxVam == 0.0
    ensures best.Some? ==> IsBest(n, w, best.value.startIdx, best.value.endIdx) && maxVam == w(best.value.startIdx, best.value.endIdx).vam
  {
    maxVam, best := 0.0, None;
    var i: nat := 0;
    while i < n
      invariant ScanInvariant(n, w, i, i + 1, maxVam, best)
      invariant ScanFrom(n, w, i, i + 1, maxVam, best) == Scan(n, w)
    {
      maxVam, best := ScanRow(n, w, i, maxVam, best);
      i := i + 1;
    }
  }

  /** Once the break fires for row a, no later window of that row would
      have been accepted: the break only skips windows the search rejects. */
  ghost predicate StopIsFinal(n: nat, w: Windows) {
    forall a: nat, k: nat, b: nat :: a < k < b < n && w(a, k).stop ==> !w(a, b).qualifies
  }

  /** The same search with the `break` removed. */
  function NoBreak(w: Windows): Windows {
    (a: nat, b: nat) => w(a, b).(stop := false)
  }

  /** With a break that is final, every accepted window is scanned. */
  lemma BreakIsSafe(n: nat, w: Windows)
    requires StopIsFinal(n, w)
    ensures forall a: nat, b: nat :: a < b < n && w(a, b).qualifies ==> Candidate(n, w, a, b)
  {
    forall a: nat, b: nat | a < b < n && w(a, b).qualifies
      ensures Reached(w, a, b)
    {
      forall k: nat | a < k < b ensures !w(a, k).stop {
        assert w(a, k).stop ==> !w(a, b).qualifies;
      }
    }
  }

  /** At most one window is the answer. */
  lemma BestIsUnique(n: nat, w: Windows, a: nat, b: nat, c: nat, d: nat)
    requires IsBest(n, w, a, b) && IsBest(n, w, c, d)
    ensures a == c && b == d
  {
    assert w(a, b).vam == w(c, d).vam;
    assert !Earlier(a, b, c, d) && !Earlier(c, d, a, b);
  }

  /** Removing a final break leaves the answer unchanged: the break is an
      optimisation, not a change of behaviour. */
  lemma ScanIgnoresSafeBreak(n: nat, w: Windows)
    requires StopIsFinal(n, w)
    ensures Scan(n, w) == Scan(n, NoBreak(w))
  {
    var w' := NoBreak(w);
    BreakIsSafe(n, w);
    assert forall a: nat, b: nat :: Candidate(n, w, a, b) <==> Candidate(n, w', a, b) by {
      forall a: nat, b: nat ensures Candidate(n, w, a, b) <==> Candidate(n, w', a, b) {
        assert w'(a, b) == w(a, b).(stop := false);
        if a < b < n && w(a, b).qualifies {
          assert Candidate(n, w, a, b);
          assert Reached(w', a, b);
        }
      }
    }
    assert forall a: nat, b: nat :: w'(a, b).vam == w(a, b).vam;
    var r, r' := Scan(n, w), Scan(n, w');
    if r.Some? {
      assert IsBest(n, w', r.value.startIdx, r.value.endIdx);
      assert !NoneFound(n, w');
      BestIsUnique(n, w', r.value.startIdx, r.value.endIdx, r'.value.startIdx, r'.value.endIdx);
    } else {
      assert NoneFound(n, w');
    }
  }
}
