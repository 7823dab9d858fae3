/**
 The application's state machine: the status, the current result, the error message and
 the recency-ordered history, together with the single durable storage slot the history is
 mirrored into. Every handler is a pure transition; the analysis itself is outside the model
 and arrives as the result carried by `Resolved` or the message carried by `Rejected`.
 */
module App {
  import opened Wrappers
  import opened Types

  /** The history keeps at most this many results. */
  const HistoryLimit: nat := 10

  /** Shown when a failed analysis carries no message of its own. */
  const FallbackError := "Failed to analyze image. Please try again."

  /** What the storage slot holds: a list written by the application, or text whose JSON
      parse throws. An absent slot, or one holding the empty string, is `None`. */
  datatype Slot = Saved(entries: seq<AnalysisResult>) | Unreadable(raw: string)

  datatype Session = Session(state: AnalysisState, storage: Option<Slot>)

  /** `s.slice(0, n)`: the first `n` elements, or all of them when there are fewer. */
  function Take<T>(s: seq<T>, n: nat): (r: seq<T>)
    ensures |r| == if |s| <= n then |s| else n
    ensures forall i :: 0 <= i < |r| ==> r[i] == s[i]
  {
    if |s| <= n then s else s[..n]
  }

  /** `[result, ...history].slice(0, 10)`: the new result first, then as many of the old
      entries, in their old order, as fit under the limit. */
  function PushHistory(result: AnalysisResult, history: seq<AnalysisResult>): (h: seq<AnalysisResult>)
    ensures |h| <= HistoryLimit
    ensures |h| == if |history| < HistoryLimit then |history| + 1 else HistoryLimit
    ensures h[0] == result
    ensures h[1..] == history[..|h| - 1]
    ensures |history| < HistoryLimit ==> h == [result] + history
    ensures |history| == HistoryLimit ==> h == [result] + history[..HistoryLimit - 1]
  {
    Take([result] + history, HistoryLimit)
  }

  /** The state the application starts in, before the mount effect runs. */
  function Initial(storage: Option<Slot>): (s: Session)
    ensures s.state.status == Idle && s.state.currentResult == None
    ensures s.state.history == [] && s.state.errorMsg == None
    ensures s.storage == storage
  {
    Session(AnalysisState(Idle, None, [], None), storage)
  }

  /** The mount effect as its `try`/`catch` intends it: a saved list becomes the history
      verbatim, without truncation; an absent slot leaves the history as it was, and so does
      an unreadable one, whose parse error is caught and logged. */
  function Mount(s: Session): (r: Session)
    ensures r.storage == s.storage
    ensures r.state.status == s.state.status && r.state.currentResult == s.state.currentResult
    ensures r.state.errorMsg == s.state.errorMsg
    ensures s.storage.Some? && s.storage.value.Saved? ==> r.state.history == s.storage.value.entries
    ensures (s.storage.None? || s.storage.value.Unreadable?) ==> r.state.history == s.state.history
  {
    match s.storage
    case Some(Saved(entries)) => s.(state := s.state.(history := entries))
    case _ => s
  }

  /** The mount effect as the code is written. The saved text is parsed inside the state
      updater, and React evaluates the updater while rendering, after the `try` block has
      returned (an early evaluation at the call swallows the error and leaves it to the
      render). So an unreadable slot throws during render and, with no error boundary, tears
      the application down: `None`. The slot is left as it was, so every later start fails
      the same way. A saved list or an absent slot loads as intended. */
  function MountAsWritten(s: Session): (r: Option<Session>)
    ensures r.None? <==> s.storage.Some? && s.storage.value.Unreadable?
    ensures r.Some? && s.storage.Some? ==> r.value.state.history == s.storage.value.entries
    ensures r.Some? && s.storage.None? ==> r.value.state.history == s.state.history
    ensures r.Some? ==> r.value.storage == s.storage
    ensures r.Some? ==> r.value.state.(history := s.state.history) == s.state
  {
    match s.storage
    case Some(Unreadable(_)) => None
    case Some(Saved(entries)) => Some(s.(state := s.state.(history := entries)))
    case None => Some(s)
  }

  /** The two loads agree on every slot but an unreadable one. */
  lemma MountAsWrittenAgrees(s: Session)
    requires s.storage.None? || s.storage.value.Saved?
    ensures MountAsWritten(s) == Some(Mount(s))
  {
  }

  /** A slot holding `{` (or any other unreadable text): the load as written tears the
      application down on every start, while the intended load starts it with an empty,
      mirrored, bounded history. */
  lemma UnreadableSlotCrashes(raw: string)
    ensures MountAsWritten(Initial(Some(Unreadable(raw)))).None?
    ensures MountAsWritten(Initial(Some(Unreadable("{")))) == None
    ensures Mount(Initial(Some(Unreadable(raw)))).state.history == []
    ensures Mirrored(Mount(Initial(Some(Unreadable(raw)))))
    ensures Bounded(Mount(Initial(Some(Unreadable(raw)))))
  {
  }

  /** The history a fresh start would show with this storage slot. */
  function Reloaded(storage: Option<Slot>): seq<AnalysisResult>
  {
    Mount(Initial(storage)).state.history
  }

  /** The user submits a file: the status becomes analyzing and the error is cleared. */
  function Submit(s: Session): (r: Session)
    ensures r.state.status == Analyzing && r.state.errorMsg == None
    ensures r.state.currentResult == s.state.currentResult && r.state.history == s.state.history
    ensures r.storage == s.storage
  {
    s.(state := s.state.(status := Analyzing, errorMsg := None))
  }

  /** The analysis succeeds: the result is current and first in the history, and the
      storage slot holds exactly the new history. Applied in whatever status it arrives. */
  function Resolve(s: Session, result: AnalysisResult): (r: Session)
    ensures r.state.status == Complete && r.state.currentResult == Some(result)
    ensures r.state.history == PushHistory(result, s.state.history)
    ensures r.storage == Some(Saved(r.state.history))
    ensures Reloaded(r.storage) == r.state.history
    ensures r.state.errorMsg == s.state.errorMsg
  {
    var history := PushHistory(result, s.state.history);
    Session(s.state.(status := Complete, currentResult := Some(result), history := history),
            Some(Saved(history)))
  }

  /** `err.message || fallback`: a missing or empty message is replaced by the fixed text. */
  function ErrorText(message: Option<string>): (t: string)
    ensures t != ""
    ensures message.Some? && message.value != "" ==> t == message.value
    ensures message.None? || message.value == "" ==> t == FallbackError
  {
    match message
    case Some(m) => if m != "" then m else FallbackError
    case None => FallbackError
  }

  /** The analysis fails: the status is error and the message is shown; the history, the
      storage and the current result stay as they were. */
  function Reject(s: Session, message: Option<string>): (r: Session)
    ensures r.state.status == Error && r.state.errorMsg == Some(ErrorText(message))
    ensures r.state.currentResult == s.state.currentResult && r.state.history == s.state.history
    ensures r.storage == s.storage
  {
    s.(state := s.state.(status := Error, errorMsg := Some(ErrorText(message))))
  }

  /** A history entry is opened: it becomes the current result, shown as complete. */
  function Select(s: Session, entry: AnalysisResult): (r: Session)
    ensures r.state.status == Complete && r.state.currentResult == Some(entry)
    ensures r.state.history == s.state.history && r.state.errorMsg == s.state.errorMsg
    ensures r.storage == s.storage
  {
    s.(state := s.state.(status := Complete, currentResult := Some(entry)))
  }

  /** The history is cleared: the list is emptied and the slot removed, so a fresh start
      also shows an empty history. */
  function ClearHistory(s: Session): (r: Session)
    ensures r.state.history == [] && r.storage == None
    ensures Reloaded(r.storage) == []
    ensures r.state.status == s.state.status && r.state.currentResult == s.state.currentResult
    ensures r.state.errorMsg == s.state.errorMsg
  {
    Session(s.state.(history := []), None)
  }

  /** The results view's back button: the status returns to idle and nothing else changes,
      so the current result is retained but no longer shown. */
  function Back(s: Session): (r: Session)
    ensures r.state.status == Idle
    ensures r.state.currentResult == s.state.currentResult && r.state.history == s.state.history
    ensures r.state.errorMsg == s.state.errorMsg && r.storage == s.storage
    ensures !ShowsResults(r)
  {
    s.(state := s.state.(status := Idle))
  }

  datatype Event =
    | Submitted
    | Resolved(result: AnalysisResult)
    | Rejected(message: Option<string>)
    | Selected(entry: AnalysisResult)
    | BackPressed
    | HistoryCleared

  /** One event, dispatched to its handler. Only a success or a clear touches the history
      and the storage, only a success or an opened entry changes the current result, only a
      submission or a failure changes the error, and a clear keeps the status. */
  function Step(s: Session, e: Event): (r: Session)
    ensures !e.Resolved? && !e.HistoryCleared? ==>
      r.state.history == s.state.history && r.storage == s.storage
    ensures !e.Resolved? && !e.Selected? ==> r.state.currentResult == s.state.currentResult
    ensures !e.Submitted? && !e.Rejected? ==> r.state.errorMsg == s.state.errorMsg
    ensures e.HistoryCleared? ==> r.state.status == s.state.status
  {
    match e
    case Submitted => Submit(s)
    case Resolved(result) => Resolve(s, result)
    case Rejected(message) => Reject(s, message)
    case Selected(entry) => Select(s, entry)
    case BackPressed => Back(s)
    case HistoryCleared => ClearHistory(s)
  }

  /** The session after the events, applied in order. A run without a success or a clear
      leaves the history and the storage as they were, and a run without a submission or
      a failure leaves the error message as it was. */
  function Run(s: Session, events: seq<Event>): (r: Session)
    ensures (forall i :: 0 <= i < |events| ==> !events[i].Resolved? && !events[i].HistoryCleared?) ==>
      r.state.history == s.state.history && r.storage == s.storage
    ensures (forall i :: 0 <= i < |events| ==> !events[i].Submitted? && !events[i].Rejected?) ==>
      r.state.errorMsg == s.state.errorMsg
    decreases |events|
  {
    if |events| == 0 then s else Run(Step(s, events[0]), events[1..])
  }

  /** Running two batches of events one after the other is running them together. */
  lemma {:induction false} RunAppend(s: Session, a: seq<Event>, b: seq<Event>)
    ensures Run(s, a + b) == Run(Run(s, a), b)
    decreases |a|
  {
    if |a| == 0 {
      assert a + b == b;
    } else {
      assert (a + b)[0] == a[0];
      assert (a + b)[1..] == a[1..] + b;
      RunAppend(Step(s, a[0]), a[1..], b);
    }
  }

  /** The results view replaces the upload view exactly when the analysis is complete and
      there is a current result. */
  predicate ShowsResults(s: Session) {
    s.state.status == Complete && s.state.currentResult.Some?
  }

  /** What the application renders. */
  datatype View =
    | ResultsView(result: AnalysisResult)
    | UploadView(busy: bool, historyButton: Option<nat>, errorBanner: Option<string>)

  /** The results view for a complete state with a result; otherwise the upload view, busy
      while analyzing, with a history button counting the entries when there are any and an
      error banner in the error status. */
  function Render(s: Session): (v: View)
    ensures v.ResultsView? <==> ShowsResults(s)
    ensures v.ResultsView? ==> Some(v.result) == s.state.currentResult
    ensures v.UploadView? ==> (v.busy <==> s.state.status == Analyzing)
    ensures v.UploadView? ==> (v.historyButton.Some? <==> |s.state.history| > 0)
    ensures v.UploadView? && v.historyButton.Some? ==> v.historyButton.value == |s.state.history|
    ensures v.UploadView? ==> (v.errorBanner.Some? <==> s.state.status == Error)
  {
    if ShowsResults(s) then ResultsView(s.state.currentResult.value)
    else
      UploadView(
        s.state.status == Analyzing,
        if |s.state.history| > 0 then Some(|s.state.history|) else None,
        if s.state.status == Error then Some("Error: " + s.state.errorMsg.GetOr("")) else None)
  }

  /** The history is within its limit, and so is any list in the storage slot. */
  predicate Bounded(s: Session) {
    && |s.state.history| <= HistoryLimit
    && (s.storage.Some? && s.storage.value.Saved? ==> |s.storage.value.entries| <= HistoryLimit)
  }

  /** The history is what the storage slot holds, and empty when the slot holds no list. */
  predicate Mirrored(s: Session) {
    s.state.history == Reloaded(s.storage)
  }

  /** After the mount effect the history mirrors the slot, and is bounded whenever the
      slot's list is; a longer saved list is taken whole, since loading never truncates. */
  lemma MountEstablishes(storage: Option<Slot>)
    ensures Mirrored(Mount(Initial(storage)))
    ensures storage.Some? && storage.value.Saved? ==>
      (Bounded(Mount(Initial(storage))) <==> |storage.value.entries| <= HistoryLimit)
    ensures storage.None? || storage.value.Unreadable? ==> Bounded(Mount(Initial(storage)))
  {
  }

  /** No event breaks the mirror between the history and the storage slot. */
  lemma {:induction false} RunPreservesMirrored(s: Session, events: seq<Event>)
    requires Mirrored(s)
    ensures Mirrored(Run(s, events))
    decreases |events|
  {
    if |events| > 0 {
      var t := Step(s, events[0]);
      assert Mirrored(t);
      RunPreservesMirrored(t, events[1..]);
    }
  }

  /** No event takes the history or the saved list over the limit. */
  lemma {:induction false} RunPreservesBounded(s: Session, events: seq<Event>)
    requires Bounded(s)
    ensures Bounded(Run(s, events))
    decreases |events|
  {
    if |events| > 0 {
      var t := Step(s, events[0]);
      assert Bounded(t);
      RunPreservesBounded(t, events[1..]);
    }
  }

  /** A failed attempt restores everything but the status and the message: history, storage
      and the previously shown result are as they were before the submission. */
  lemma SubmitThenReject(s: Session, message: Option<string>)
    ensures Run(s, [Submitted, Rejected(message)]) ==
      s.(state := s.state.(status := Error, errorMsg := Some(ErrorText(message))))
  {
    var t := Submit(s);
    assert [Submitted, Rejected(message)][1..] == [Rejected(message)];
    assert Run(t, [Rejected(message)]) == Run(Reject(t, message), []);
  }

  /** Opening an entry of the history keeps the shown result inside the history. */
  lemma SelectFromHistory(s: Session, i: nat)
    requires i < |s.state.history|
    ensures ShowsResults(Select(s, s.state.history[i]))
    ensures Render(Select(s, s.state.history[i])) == ResultsView(s.state.history[i])
  {
  }

  function Reverse<T>(s: seq<T>): (r: seq<T>)
    ensures |r| == |s|
    ensures forall i :: 0 <= i < |s| ==> r[i] == s[|s| - 1 - i]
  {
    if |s| == 0 then [] else Reverse(s[1..]) + [s[0]]
  }

  /** One `Resolved` event per result, in order. */
  function Resolutions(results: seq<AnalysisResult>): (es: seq<Event>)
    ensures |es| == |results|
    ensures forall i :: 0 <= i < |results| ==> es[i] == Resolved(results[i])
  {
    seq(|results|, i requires 0 <= i < |results| => Resolved(results[i]))
  }

  /** A run of successful analyses leaves the most recent ten, newest first, ahead of what
      remains of the old history. */
  lemma {:induction false} ResolveMany(s: Session, results: seq<AnalysisResult>)
    requires |results| > 0 || |s.state.history| <= HistoryLimit
    ensures Run(s, Resolutions(results)).state.history ==
      Take(Reverse(results) + s.state.history, HistoryLimit)
    decreases |results|
  {
    if |results| > 0 {
      var h := s.state.history;
      var t := Resolve(s, results[0]);
      var rr := Reverse(results[1..]);
      RunFirstResolution(s, results);
      ResolveMany(t, results[1..]);
      assert t.state.history == Take([results[0]] + h, HistoryLimit);
      assert Reverse(results) == rr + [results[0]];
      TakeAfterPush(rr, results[0], h, HistoryLimit);
    }
  }

  /** Pushing `x` then the elements of `rr` (last first) keeps the same first `n` as
      taking them from the whole list. */
  lemma TakeAfterPush<T>(rr: seq<T>, x: T, h: seq<T>, n: nat)
    ensures Take(rr + Take([x] + h, n), n) == Take(rr + [x] + h, n)
  {
    TakePrefix(rr, Take([x] + h, n), [x] + h, n);
    assert rr + ([x] + h) == rr + [x] + h;
  }

  /** Running resolutions applies the first one, then the rest. */
  lemma RunFirstResolution(s: Session, results: seq<AnalysisResult>)
    requires |results| > 0
    ensures Run(s, Resolutions(results)) == Run(Resolve(s, results[0]), Resolutions(results[1..]))
  {
    assert Resolutions(results)[1..] == Resolutions(results[1..]);
  }

  /** Taking `n` of `a + b` only looks at the first `n` of `b`. */
  lemma TakePrefix<T>(a: seq<T>, b: seq<T>, c: seq<T>, n: nat)
    requires b == Take(c, n)
    ensures Take(a + b, n) == Take(a + c, n)
  {
    if |c| > n {
      assert (a + b)[..n] == (a + c)[..n] || |a + b| <= n;
      if |a + b| <= n {
        assert |a| == 0 || |a + b| <= n;
      }
    }
  }

  /** Eleven analyses from an empty history: the newest is first, the first one is gone,
      and the other ten remain newest first. */
  lemma EleventhEvicts(s: Session, results: seq<AnalysisResult>)
    requires s.state.history == []
    requires |results| == HistoryLimit + 1
    ensures Run(s, Resolutions(results)).state.history == Reverse(results[1..])
    ensures Run(s, Resolutions(results)).state.history[0] == results[HistoryLimit]
  {
    ResolveMany(s, results);
    assert Reverse(results) + [] == Reverse(results);
    assert Reverse(results)[..HistoryLimit] == Reverse(results[1..]);
  }

  /** The first analysis after a fresh start with no saved history: complete, one entry in
      the history, and exactly that entry in storage. */
  lemma FirstAnalysis(result: AnalysisResult)
    ensures var s := Run(Mount(Initial(None)), [Submitted, Resolved(result)]);
      && s.state.status == Complete
      && s.state.history == [result]
      && s.storage == Some(Saved([result]))
      && Render(s) == ResultsView(result)
  {
    var t := Submit(Mount(Initial(None)));
    assert [Submitted, Resolved(result)][1..] == [Resolved(result)];
    assert Run(t, [Resolved(result)]) == Run(Resolve(t, result), []);
  }
}
