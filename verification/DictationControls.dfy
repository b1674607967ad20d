/** Stop and Cancel, whatever comes after them: when every microphone is given back, and when no words are written. */
module DictationControls {
  import opened Options
  import opened Dictation
  import opened DictationSafety

  // ---- what Stop and Cancel settle -------------------------------------------------------------------------------

  predicate Waiting(w: State) { exists k | 0 <= k < |w.owed.stops| :: !w.owed.stops[k].done }

  /** Nothing is recorded, and the waveform's microphone only until a stop being waited for comes. */
  predicate OnlyEnding(w: State) { w.mics.media == None && (w.mics.level == None || Waiting(w)) }

  /** Presses and hand-overs still waiting for the microphone are older than now. */
  predicate AllOld(w: State) {
    && (w.owed.starting.Some? ==> w.owed.starting.value < w.session)
    && (forall k | 0 <= k < |w.owed.asks| && w.owed.asks[k].Some? :: w.owed.asks[k].value < w.session)
  }

  predicate NoneAhead(w: State) {
    && (w.owed.starting.Some? ==> w.owed.starting.value <= w.session)
    && (forall k | 0 <= k < |w.owed.asks| && w.owed.asks[k].Some? :: w.owed.asks[k].value <= w.session)
  }

  /** What may still come by itself, but for the service failing over the network. */
  predicate Calm(e: Event) { !ByPerson(e) && !(e.Errs? && e.fault == Network) }

  predicate Settled(w: State) {
    !Waiting(w) && forall k | 0 <= k < |w.mics.closings| :: w.mics.closings[k].stage != Stopping
  }

  ghost predicate OnlyLostOpen(w: State) { w.mics.open == w.mics.orphans }

  /**
   * Whatever comes that is not the person's doing: once it has settled, every microphone is given back that is not
   * lost.
   */
  ghost predicate GivesAllBack(w: State) {
    forall es | Possible(w, es) && (forall e | e in es :: !ByPerson(e)) && Settled(After(w, es)) ::
      OnlyLostOpen(After(w, es))
  }

  /** The same, should the service not fail over the network. */
  ghost predicate GivesAllBackCalmly(w: State) {
    forall es | Possible(w, es) && (forall e | e in es :: Calm(e)) && Settled(After(w, es)) ::
      OnlyLostOpen(After(w, es))
  }

  /** No recogniser is left that could still fail. */
  ghost predicate AllEnded(w: State) { forall r: nat | r < w.owed.recs :: r in w.owed.ended }

  lemma CalmMicrophone(w: State, e: Event)
    requires OnlyEnding(w) && AllOld(w) && Enabled(w, e) && ByMicrophone(e)
    ensures OnlyEnding(Apply(w, e)) && AllOld(Apply(w, e))
  {
    var x := Apply(w, e);
    if Waiting(w) && !e.Diagnosed? {
      assert x.owed.stops == w.owed.stops;
    }
  }

  lemma CalmEnd(w: State, e: Event)
    requires OnlyEnding(w) && AllOld(w) && Enabled(w, e) && e.Ends?
    ensures OnlyEnding(Apply(w, e)) && AllOld(Apply(w, e))
  {
    var x := Apply(w, e);
    if x.mics.level.Some? {
      assert x.owed.stops == w.owed.stops;
    }
  }

  lemma CalmService(w: State, e: Event)
    requires OnlyEnding(w) && AllOld(w) && Enabled(w, e) && Calm(e) && (e.Errs? || e.WaitIsOver?)
    ensures OnlyEnding(Apply(w, e)) && AllOld(Apply(w, e))
  {
    var x := Apply(w, e);
    if x.mics.level.Some? {
      assert x.owed.stops == w.owed.stops;
    }
  }

  lemma CalmRecorder(w: State, e: Event)
    requires OnlyEnding(w) && AllOld(w) && Enabled(w, e) && (e.Recorded? || e.Wrote?)
    ensures OnlyEnding(Apply(w, e)) && AllOld(Apply(w, e))
  {
    assert Apply(w, e).owed.stops == w.owed.stops;
  }

  lemma {:induction false} CalmKeeps(w: State, es: seq<Event>)
    requires Inv(w) && OnlyEnding(w) && AllOld(w) && Possible(w, es) && forall e | e in es :: Calm(e)
    ensures Inv(After(w, es)) && OnlyEnding(After(w, es)) && AllOld(After(w, es))
    decreases |es|
  {
    if es != [] {
      var v, e := After(w, es[..|es| - 1]), es[|es| - 1];
      CalmKeeps(w, es[..|es| - 1]);
      StepKeeps(v, e);
      if ByMicrophone(e) { CalmMicrophone(v, e); }
      else if e.Recorded? || e.Wrote? { CalmRecorder(v, e); }
      else if e.Ends? { CalmEnd(v, e); }
      else { CalmService(v, e); }
    }
  }

  /** A way for things to settle from here: each recorder is done, each wait is over. */
  lemma {:induction false} Settling(w: State, i: nat, j: nat) returns (es: seq<Event>)
    requires Inv(w) && !OnlyEnding(w) && i <= |w.mics.closings| && j <= |w.owed.stops|
    requires forall k | 0 <= k < i :: w.mics.closings[k].stage != Stopping
    requires forall k | 0 <= k < j :: w.owed.stops[k].done
    ensures Possible(w, es) && (forall e | e in es :: Calm(e)) && Settled(After(w, es))
    ensures Inv(After(w, es)) && !OnlyEnding(After(w, es))
    decreases |w.mics.closings| - i + |w.owed.stops| - j
  {
    if i < |w.mics.closings| && w.mics.closings[i].stage == Stopping {
      StepKeeps(w, Recorded(i));
      assert Waiting(Apply(w, Recorded(i))) <==> Waiting(w);
      var later := Settling(Apply(w, Recorded(i)), i + 1, j);
      Prepend(w, Recorded(i), later);
      es := [Recorded(i)] + later;
    } else if i < |w.mics.closings| {
      es := Settling(w, i + 1, j);
    } else if j < |w.owed.stops| && !w.owed.stops[j].done {
      assert Waiting(w);
      StepKeeps(w, WaitIsOver(j));
      var later := Settling(Apply(w, WaitIsOver(j)), i, j + 1);
      Prepend(w, WaitIsOver(j), later);
      es := [WaitIsOver(j)] + later;
    } else if j < |w.owed.stops| {
      es := Settling(w, i, j + 1);
    } else {
      es := [];
    }
  }

  lemma SettledHoldsNothing(w: State)
    requires Inv(w) && Settled(w) && OnlyEnding(w)
    ensures OnlyLostOpen(w)
  {
    forall s: Stream
      ensures s in w.mics.open <==> s in w.mics.orphans
    {
      assert s in w.mics.open <==> HasHolder(w.mics, None, s);
    }
  }

  lemma StillHeld(w: State)
    requires Inv(w) && Settled(w) && !OnlyEnding(w)
    ensures !OnlyLostOpen(w)
  {
    assert HasHolder(w.mics, None, if w.mics.media.Some? then w.mics.media.value else w.mics.level.value);
  }

  lemma CalmlyIff(w: State)
    requires Inv(w) && AllOld(w)
    ensures GivesAllBackCalmly(w) <==> OnlyEnding(w)
  {
    if OnlyEnding(w) {
      forall es | Possible(w, es) && (forall e | e in es :: Calm(e)) && Settled(After(w, es))
        ensures OnlyLostOpen(After(w, es))
      {
        CalmKeeps(w, es);
        SettledHoldsNothing(After(w, es));
      }
    } else {
      var es := Settling(w, 0, 0);
      StillHeld(After(w, es));
    }
  }

  // ---- and when the service may still fail -----------------------------------------------------------------------

  lemma EndedStep(w: State, e: Event)
    requires AllOld(w) && AllEnded(w) && Enabled(w, e) && !ByPerson(e)
    ensures Calm(e) && AllEnded(Apply(w, e))
  {
  }

  lemma {:induction false} EndedIsCalm(w: State, es: seq<Event>)
    requires Inv(w) && OnlyEnding(w) && AllOld(w) && AllEnded(w)
    requires Possible(w, es) && forall e | e in es :: !ByPerson(e)
    ensures (forall e | e in es :: Calm(e)) && AllEnded(After(w, es))
    decreases |es|
  {
    if es != [] {
      EndedIsCalm(w, es[..|es| - 1]);
      CalmKeeps(w, es[..|es| - 1]);
      EndedStep(After(w, es[..|es| - 1]), es[|es| - 1]);
      assert es == es[..|es| - 1] + [es[|es| - 1]];
    }
  }

  lemma GoneStep(w: State, e: Event)
    requires !w.alive && Enabled(w, e) && !ByPerson(e)
    ensures !Apply(w, e).alive
  {
  }

  lemma {:induction false} StaysGone(w: State, es: seq<Event>)
    requires Inv(w) && !w.alive && Possible(w, es) && forall e | e in es :: !ByPerson(e)
    ensures Inv(After(w, es)) && !After(w, es).alive
    decreases |es|
  {
    if es != [] {
      StaysGone(w, es[..|es| - 1]);
      StepKeeps(After(w, es[..|es| - 1]), es[|es| - 1]);
      GoneStep(After(w, es[..|es| - 1]), es[|es| - 1]);
    }
  }

  /**
   * The service fails over the network, and Whisper starts: at once, or when it is given the microphone it asks for.
   */
  lemma HandsOver(w: State, r: nat) returns (es: seq<Event>)
    requires Inv(w) && w.alive && r < w.owed.recs && r !in w.owed.ended
    ensures Possible(w, es) && (forall e | e in es :: !ByPerson(e)) && Inv(After(w, es)) && !OnlyEnding(After(w, es))
  {
    var e := Errs(r, Network, true, false);
    var v := Apply(w, e);
    var none: seq<Event> := [];
    StepKeeps(w, e);
    if v.mics.media.Some? {
      Prepend(w, e, none);
      es := [e] + none;
    } else {
      var f := AskGiven(|v.owed.asks| - 1, false);
      StepKeeps(v, f);
      Prepend(v, f, none);
      Prepend(w, e, [f] + none);
      es := [e] + ([f] + none);
    }
  }

  lemma {:induction false} Following(w: State, es: seq<Event>, later: seq<Event>)
    requires Possible(w, es) && Possible(After(w, es), later)
    ensures Possible(w, es + later) && After(w, es + later) == After(After(w, es), later)
    decreases |later|
  {
    var all := es + later;
    if later == [] {
      assert all == es;
    } else {
      Following(w, es, later[..|later| - 1]);
      assert all[..|all| - 1] == es + later[..|later| - 1];
    }
  }

  lemma MayFail(w: State, r: nat)
    requires Inv(w) && w.alive && r < w.owed.recs && r !in w.owed.ended
    ensures !GivesAllBack(w)
  {
    var es := HandsOver(w, r);
    var later := Settling(After(w, es), 0, 0);
    Following(w, es, later);
    StillHeld(After(w, es + later));
  }

  lemma GivesAllBackIff(w: State)
    requires Inv(w) && AllOld(w)
    ensures GivesAllBack(w) <==> !w.alive || (OnlyEnding(w) && AllEnded(w))
  {
    if !w.alive || (OnlyEnding(w) && AllEnded(w)) {
      forall es | Possible(w, es) && (forall e | e in es :: !ByPerson(e)) && Settled(After(w, es))
        ensures OnlyLostOpen(After(w, es))
      {
        if w.alive {
          EndedIsCalm(w, es);
          CalmKeeps(w, es);
        } else {
          StaysGone(w, es);
        }
        SettledHoldsNothing(After(w, es));
      }
    } else if !OnlyEnding(w) {
      var es := Settling(w, 0, 0);
      StillHeld(After(w, es));
    } else {
      var r: nat :| r < w.owed.recs && r !in w.owed.ended;
      MayFail(w, r);
    }
  }

  /** The guard: the branch Stop takes must not leave a recording, or a waveform nobody waits for, behind. */
  predicate CleanStop(w: State) {
    if w.handingOver then w.mics.media == None
    else if w.finishing.Some? then OnlyEnding(w)
    else w.mics.media == None || w.mics.level == None || Waiting(w)
  }

  lemma StopLeaves(w: State, throws: bool)
    requires NoneAhead(w)
    ensures AllOld(Stop(w, throws)) && (OnlyEnding(Stop(w, throws)) <==> CleanStop(w))
    ensures Stop(w, throws).alive == w.alive && (AllEnded(Stop(w, throws)) <==> AllEnded(w))
  {
    StopIs(w, throws);
    var x := Stop(w, throws);
    if !w.handingOver && w.finishing.None? && w.mics.media.None? && w.rec.Some? {
      assert !throws ==> x.owed.stops[|w.owed.stops|] == Pending(w.rec.value, false);
    } else {
      assert x.owed.stops == w.owed.stops;
    }
  }

  /**
   * After Stop every microphone is given back, whatever comes by itself, exactly when the page has gone or Stop found
   * things in order and no recogniser is left that could still fail over the network: one thing to stop, and nothing
   * recording behind a hand-over or an earlier recording still being finished.
   */
  lemma StopGivesAllBackIff(w: State, throws: bool)
    requires Inv(w) && NoneAhead(w)
    ensures GivesAllBack(Stop(w, throws)) <==> !w.alive || (CleanStop(w) && AllEnded(w))
    ensures GivesAllBackCalmly(Stop(w, throws)) <==> CleanStop(w)
  {
    StopKeeps(w, w, throws);
    StopLeaves(w, throws);
    GivesAllBackIff(Stop(w, throws));
    CalmlyIff(Stop(w, throws));
  }

  predicate CleanCancel(w: State) { w.mics.media.Some? || w.finishing.None? || w.mics.level == None || Waiting(w) }

  lemma CancelLeaves(w0: State, throws: bool)
    requires NoneAhead(w0)
    ensures AllOld(Cancel(w0, throws)) && (OnlyEnding(Cancel(w0, throws)) <==> CleanCancel(w0))
    ensures Cancel(w0, throws).alive == w0.alive && (AllEnded(Cancel(w0, throws)) <==> AllEnded(w0))
  {
    var w := w0.(session := w0.session + 1);
    CancelIs(w0, throws);
    assert Waiting(w) <==> Waiting(w0);
    if w.mics.media.None? && w.finishing.None? { StopLeaves(w, throws); }
    else { assert Waiting(Cancel(w0, throws)) <==> Waiting(w0); }
  }

  /** The same of Cancel: a recording is always given back. */
  lemma CancelGivesAllBackIff(w: State, throws: bool)
    requires Inv(w) && NoneAhead(w)
    ensures GivesAllBack(Cancel(w, throws)) <==> !w.alive || (CleanCancel(w) && AllEnded(w))
    ensures GivesAllBackCalmly(Cancel(w, throws)) <==> CleanCancel(w)
  {
    CancelKeeps(w, throws);
    CancelLeaves(w, throws);
    GivesAllBackIff(Cancel(w, throws));
    CalmlyIff(Cancel(w, throws));
  }

  lemma NoneAheadControl(w: State, e: Event)
    requires Enabled(w, e) && NoneAhead(w) && ByPerson(e)
    ensures NoneAhead(Apply(w, e))
  {
    match e
    case Presses(throws) => if w.listening { StopLeaves(w, throws); }
    case Stops(throws) => StopLeaves(w, throws);
    case TwoMinutes(throws) => StopLeaves(w, throws);
    case Cancels(throws) => CancelLeaves(w, throws);
    case Unmounts =>
  }

  lemma NoneAheadMicrophone(w: State, e: Event)
    requires Enabled(w, e) && NoneAhead(w) && ByMicrophone(e)
    ensures NoneAhead(Apply(w, e))
  {
  }

  lemma NoneAheadError(w: State, e: Event)
    requires Enabled(w, e) && NoneAhead(w) && e.Errs?
    ensures NoneAhead(Apply(w, e))
  {
  }

  lemma NoneAheadEngine(w: State, e: Event)
    requires Enabled(w, e) && NoneAhead(w) && !ByPerson(e) && !ByMicrophone(e) && !e.Errs?
    ensures NoneAhead(Apply(w, e))
  {
  }

  lemma NoneAheadStep(w: State, e: Event)
    requires Enabled(w, e) && NoneAhead(w)
    ensures NoneAhead(Apply(w, e))
  {
    if ByPerson(e) { NoneAheadControl(w, e); }
    else if ByMicrophone(e) { NoneAheadMicrophone(w, e); }
    else if e.Errs? { NoneAheadError(w, e); }
    else { NoneAheadEngine(w, e); }
  }

  /** Both hold of every state there can be. */
  lemma {:induction false} NoneAheadAlways(es: seq<Event>)
    requires Possible(MOUNTED, es)
    ensures Inv(After(MOUNTED, es)) && NoneAhead(After(MOUNTED, es))
    decreases |es|
  {
    InvAlways(es);
    if es != [] {
      NoneAheadAlways(es[..|es| - 1]);
      NoneAheadStep(After(MOUNTED, es[..|es| - 1]), es[|es| - 1]);
    }
  }

  // ---- what is cancelled is not written --------------------------------------------------------------------------

  /** The speech of closing `k` can no longer reach the box. */
  predicate Abandoned(w: State, k: nat) {
    && k < |w.mics.closings| && k !in w.owed.written
    && (w.alive ==> Overtaken(w.mics.closings[k].stage, w.transcribing))
  }

  predicate Overtaken(stage: Stage, transcribing: nat) {
    stage.Over? || (stage.Writing? && stage.mine < transcribing)
  }

  lemma StopStaysAbandoned(w: State, throws: bool, k: nat)
    requires Abandoned(w, k)
    ensures Abandoned(Stop(w, throws), k)
  {
    StopIs(w, throws);
  }

  lemma CancelStaysAbandoned(w0: State, throws: bool, k: nat)
    requires Abandoned(w0, k)
    ensures Abandoned(Cancel(w0, throws), k)
  {
    var w := w0.(session := w0.session + 1);
    CancelIs(w0, throws);
    if w.mics.media.None? && w.finishing.None? { StopStaysAbandoned(w, throws, k); }
  }

  lemma ControlStaysAbandoned(w: State, e: Event, k: nat)
    requires Enabled(w, e) && Abandoned(w, k) && ByPerson(e)
    ensures Abandoned(Apply(w, e), k)
  {
    match e
    case Presses(throws) => if w.listening { StopStaysAbandoned(w, throws, k); }
    case Stops(throws) => StopStaysAbandoned(w, throws, k);
    case TwoMinutes(throws) => StopStaysAbandoned(w, throws, k);
    case Cancels(throws) => CancelStaysAbandoned(w, throws, k);
    case Unmounts =>
  }

  lemma MicrophoneStaysAbandoned(w: State, e: Event, k: nat)
    requires Enabled(w, e) && Abandoned(w, k) && ByMicrophone(e)
    ensures Abandoned(Apply(w, e), k)
  {
  }

  lemma ErrorStaysAbandoned(w: State, e: Event, k: nat)
    requires Enabled(w, e) && Abandoned(w, k) && e.Errs?
    ensures Abandoned(Apply(w, e), k)
  {
  }

  lemma EngineStaysAbandoned(w: State, e: Event, k: nat)
    requires Enabled(w, e) && Abandoned(w, k) && !ByPerson(e) && !ByMicrophone(e) && !e.Errs?
    ensures Abandoned(Apply(w, e), k)
  {
  }

  lemma StaysAbandoned(w: State, e: Event, k: nat)
    requires Enabled(w, e) && Abandoned(w, k)
    ensures Abandoned(Apply(w, e), k)
  {
    if ByPerson(e) { ControlStaysAbandoned(w, e, k); }
    else if ByMicrophone(e) { MicrophoneStaysAbandoned(w, e, k); }
    else if e.Errs? { ErrorStaysAbandoned(w, e, k); }
    else { EngineStaysAbandoned(w, e, k); }
  }

  lemma {:induction false} AbandonedForGood(w: State, es: seq<Event>, k: nat)
    requires Possible(w, es) && Abandoned(w, k)
    ensures Abandoned(After(w, es), k)
    decreases |es|
  {
    if es != [] {
      AbandonedForGood(w, es[..|es| - 1], k);
      StaysAbandoned(After(w, es[..|es| - 1]), es[|es| - 1], k);
    }
  }

  ghost predicate NeverWritten(w: State, k: nat) {
    forall es | Possible(w, es) :: k !in After(w, es).owed.written
  }

  lemma StopLeavesWriting(w: State, k: nat, throws: bool)
    requires k < |w.mics.closings|
    ensures var x := Stop(w, throws);
      && x.alive == w.alive && x.owed.written == w.owed.written && x.transcribing == w.transcribing
      && k < |x.mics.closings| && x.mics.closings[k] == w.mics.closings[k]
  {
    StopIs(w, throws);
  }

  lemma CancelLeavesWriting(w0: State, k: nat, throws: bool)
    requires k < |w0.mics.closings|
    ensures var x := Cancel(w0, throws);
      && x.alive == w0.alive && x.owed.written == w0.owed.written
      && x.transcribing == w0.transcribing + (if CancelOvertakes(w0) then 1 else 0)
      && k < |x.mics.closings| && x.mics.closings[k] == w0.mics.closings[k]
  {
    var w := w0.(session := w0.session + 1);
    CancelIs(w0, throws);
    if w.mics.media.None? && w.finishing.None? { StopLeavesWriting(w, k, throws); }
  }

  lemma AbandonedIff(w: State, k: nat)
    requires Inv(w) && k < |w.mics.closings| && k !in w.owed.written
    ensures NeverWritten(w, k) <==> Abandoned(w, k)
  {
    if Abandoned(w, k) {
      forall es | Possible(w, es) ensures k !in After(w, es).owed.written { AbandonedForGood(w, es, k); }
    } else {
      var v := if w.mics.closings[k].stage.Stopping? then Apply(w, Recorded(k)) else w;
      var none: seq<Event> := [];
      Prepend(v, Wrote(k, true), none);
      if v != w { Prepend(w, Recorded(k), [Wrote(k, true)] + none); }
      assert k in Apply(v, Wrote(k, true)).owed.written;
    }
  }

  /** The cancel takes the branch that gives up what is being written out: nothing is being recorded. */
  predicate CancelOvertakes(w: State) { w.mics.media.None? && w.finishing.Some? }

  /**
   * A cancel keeps the words of a stopped recording out of the box, in every further run, exactly when the page has
   * gone, they are over or overtaken already, or they are being written out and nothing else is being recorded: between
   * Stop and the end of the recorder the writing out has no number yet to be overtaken, and a newer recording is all a
   * cancel gives up.
   */
  lemma CancelAbandonsIff(w: State, k: nat, throws: bool)
    requires Inv(w) && k < |w.mics.closings| && k !in w.owed.written
    ensures var stage := w.mics.closings[k].stage;
      NeverWritten(Cancel(w, throws), k) <==>
        !w.alive || Overtaken(stage, w.transcribing) || (stage.Writing? && CancelOvertakes(w))
  {
    CancelKeeps(w, throws);
    CancelLeavesWriting(w, k, throws);
    AbandonedIff(Cancel(w, throws), k);
  }

  lemma Then(w: State, es: seq<Event>, e: Event) returns (all: seq<Event>)
    requires Possible(w, es) && Enabled(After(w, es), e)
    ensures all == es + [e] && Possible(w, all) && After(w, all) == Apply(After(w, es), e)
  {
    all := es + [e];
    assert all[..|all| - 1] == es;
  }

  const WRITES_OUT: seq<Event> :=
    [Presses(false), StartGiven(ByService(Begins)), Errs(0, Network, true, false), Stops(false), Recorded(0)]

  /** A recording of Whisper's, after the service failed, is being written out; the recogniser has not ended. */
  lemma IsWritingOut() returns (es: seq<Event>)
    ensures es == WRITES_OUT
    ensures Possible(MOUNTED, es)
    ensures var w := After(MOUNTED, es);
      && w.alive && w.session == 2 && w.transcribing == 1 && w.owed.asks == [] && w.owed.recs == 1 && w.owed.ended == {}
      && w.owed.written == {} && w.mics.closings == [Closing(0, Writing(1))] && w.mics.media == w.mics.level == None
  {
    var none: seq<Event> := [];
    es := Then(MOUNTED, none, Presses(false));
    es := Then(MOUNTED, es, StartGiven(ByService(Begins)));
    ComesToListen();
    es := Then(MOUNTED, es, Errs(0, Network, true, false));
    es := Then(MOUNTED, es, Stops(false));
    es := Then(MOUNTED, es, Recorded(0));
  }

  /** It fails once more, and Whisper asks for another microphone and records. */
  lemma RecordsAgain() returns (es: seq<Event>)
    ensures es == WRITES_OUT + [Errs(0, Network, true, false), AskGiven(0, false)]
    ensures Possible(MOUNTED, es)
    ensures var w := After(MOUNTED, es);
      && w.alive && w.transcribing == 1 && w.owed.written == {}
      && w.mics.closings == [Closing(0, Writing(1))] && w.mics.media.Some?
  {
    es := IsWritingOut();
    es := Then(MOUNTED, es, Errs(0, Network, true, false));
    assert After(MOUNTED, es).owed.asks == [Some(2)];
    es := Then(MOUNTED, es, AskGiven(0, false));
  }

  /** Cancelled while that newer recording runs: it is given up, and the words of the older one are still written. */
  lemma OlderWordsAreWritten()
    ensures var es := WRITES_OUT + [Errs(0, Network, true, false), AskGiven(0, false), Cancels(false), Wrote(0, true)];
      Possible(MOUNTED, es) && 0 in After(MOUNTED, es).owed.written
  {
    var es := RecordsAgain();
    CancelLeavesWriting(After(MOUNTED, es), 0, false);
    es := Then(MOUNTED, es, Cancels(false));
    es := Then(MOUNTED, es, Wrote(0, true));
    assert es == WRITES_OUT + [Errs(0, Network, true, false), AskGiven(0, false), Cancels(false), Wrote(0, true)];
  }
}
