/**
 * What Stop ends: exactly when the speech service is never started again, and what else a stop and a write-out leave.
 */
module DictationStops {
  import opened Options
  import opened Dictation
  import opened DictationSafety
  import opened DictationControls
  import opened DictationListening

  // ---- the service is not started again --------------------------------------------------------------------------

  /** Whatever comes that is not the person's doing, no recogniser is made any more. */
  ghost predicate StartsNone(w: State) {
    forall es | Possible(w, es) && (forall e | e in es :: !ByPerson(e)) :: After(w, es).owed.recs == w.owed.recs
  }

  /** The service would be started again when a recogniser ends, if one is left. */
  ghost predicate MayStart(w: State) { w.wanted && w.engine == Service && !AllEnded(w) }

  /** Nothing asked for by a press is still to come, and the service may not be started. */
  ghost predicate Quiet(w: State) {
    (w.owed.starting.Some? ==> w.owed.starting.value != w.session) && !MayStart(w)
  }

  lemma QuietMicrophone(w: State, e: Event)
    requires Quiet(w) && Enabled(w, e) && ByMicrophone(e)
    ensures Quiet(Apply(w, e)) && Apply(w, e).owed.recs == w.owed.recs
  {
  }

  lemma QuietError(w: State, e: Event)
    requires Quiet(w) && Enabled(w, e) && e.Errs?
    ensures Quiet(Apply(w, e)) && Apply(w, e).owed.recs == w.owed.recs
  {
  }

  lemma QuietEnd(w: State, e: Event)
    requires Quiet(w) && Enabled(w, e) && (e.Ends? || e.WaitIsOver?)
    ensures Quiet(Apply(w, e)) && Apply(w, e).owed.recs == w.owed.recs
  {
    var x := Apply(w, e);
    assert AllEnded(w) ==> AllEnded(x);
  }

  lemma QuietStep(w: State, e: Event)
    requires Quiet(w) && Enabled(w, e) && !ByPerson(e)
    ensures Quiet(Apply(w, e)) && Apply(w, e).owed.recs == w.owed.recs
  {
    if ByMicrophone(e) { QuietMicrophone(w, e); }
    else if e.Errs? { QuietError(w, e); }
    else if e.Ends? || e.WaitIsOver? { QuietEnd(w, e); }
  }

  lemma {:induction false} QuietThrough(w: State, es: seq<Event>)
    requires Quiet(w) && Possible(w, es) && forall e | e in es :: !ByPerson(e)
    ensures Quiet(After(w, es)) && After(w, es).owed.recs == w.owed.recs
    decreases |es|
  {
    if es != [] {
      QuietThrough(w, es[..|es| - 1]);
      QuietStep(After(w, es[..|es| - 1]), es[|es| - 1]);
    }
  }

  /** Once no stop is waited for, a recogniser's end starts the next one. */
  lemma EndStarts(w: State, r: nat)
    requires w.wanted && w.engine == Service && !w.handingOver && w.stopped == None
    requires r < w.owed.recs && r !in w.owed.ended
    ensures Enabled(w, Ends(r, false, Begins)) && Apply(w, Ends(r, false, Begins)).owed.recs == w.owed.recs + 1
  {
  }

  lemma Starts(w: State)
    requires Kept(w) && MayStart(w) && !w.handingOver
    ensures !StartsNone(w)
  {
    var r: nat :| r < w.owed.recs && r !in w.owed.ended;
    var es: seq<Event> := [];
    if w.stopped.Some? {
      es := Then(w, es, WaitIsOver(w.stopped.value));
      assert After(w, es).stopped == None;
    }
    EndStarts(After(w, es), r);
    var all := Then(w, es, Ends(r, false, Begins));
    assert forall e | e in all :: !ByPerson(e);
    assert After(w, all).owed.recs == w.owed.recs + 1;
  }

  /**
   * After Stop the service is never started again exactly when Stop came to its recogniser, or there was none to start
   * again: it does not while a hand-over counts as under way, a recording is being finished, or one is stopped instead,
   * and then goes on behind a button that says off.
   */
  lemma StopStartsNoneIff(w: State, throws: bool)
    requires Kept(w) && NoneAhead(w)
    ensures StartsNone(Stop(w, throws)) <==>
      !(w.wanted && w.engine == Service && (w.handingOver || w.finishing.Some? || w.mics.media.Some?) && !AllEnded(w))
  {
    var x := Stop(w, throws);
    StopIs(w, throws);
    assert AllEnded(x) <==> AllEnded(w);
    if MayStart(x) {
      KeptStop(w, throws);
      Starts(x);
    } else {
      forall es | Possible(x, es) && (forall e | e in es :: !ByPerson(e))
        ensures After(x, es).owed.recs == x.owed.recs
      {
        QuietThrough(x, es);
      }
    }
  }

  /** A run: the press after a hand-over that never ended, Stop, and the service is started again behind "off". */
  lemma StartsAfterStop()
    ensures var es := [Presses(false), StartGiven(ByService(Begins)), Stops(false), WaitIsOver(0),
                       Errs(0, Network, true, false), Presses(false), StartGiven(ByService(Begins)), Stops(false),
                       Ends(1, false, Begins)];
      Possible(MOUNTED, es)
      && var w := After(MOUNTED, es);
         !w.listening && w.phase == Idle && w.wanted && w.rec == Some(2) && w.owed.recs == 3
  {
    var es := StopsAndFails();
    es := Then(MOUNTED, es, Presses(false));
    es := Then(MOUNTED, es, StartGiven(ByService(Begins)));
    es := Then(MOUNTED, es, Stops(false));
    es := Then(MOUNTED, es, Ends(1, false, Begins));
    assert es == [Presses(false), StartGiven(ByService(Begins)), Stops(false), WaitIsOver(0),
                  Errs(0, Network, true, false), Presses(false), StartGiven(ByService(Begins)), Stops(false),
                  Ends(1, false, Begins)];
  }

  // ---- what else a stop and a write-out leave --------------------------------------------------------------------

  /** The end of a stop's wait turns the button off, and lets go of the recogniser it waited for and of no newer one. */
  lemma WaitEndsItsOwn(w: State, k: nat)
    requires Enabled(w, WaitIsOver(k))
    ensures w.owed.stops[k].done ==> Apply(w, WaitIsOver(k)) == w
    ensures !w.owed.stops[k].done ==>
      var x := Apply(w, WaitIsOver(k));
      && !x.listening && x.phase == Idle && x.mics.level == None && x.stopped == None && x.owed.stops[k].done
      && x.rec == (if w.rec == Some(w.owed.stops[k].r) then None else w.rec)
  {
  }

  /** A second Stop while a recording is being finished only moves the session on. */
  lemma SecondStopIsQuiet(w: State, throws: bool, again: bool)
    requires w.mics.media.Some? && w.finishing.None? && !w.handingOver
    ensures var x := Stop(w, throws);
      && x.mics.media.None? && x.finishing == Some(|w.mics.closings|) && Stop(x, again) == x.(session := x.session + 1)
  {
  }

  /** Only the newest write-out turns the button off, and only its own recording is no longer being finished. */
  lemma WriteOutEndsItsOwn(w: State, k: nat, words: bool)
    requires Enabled(w, Wrote(k, words))
    ensures var x := Apply(w, Wrote(k, words));
      && x.phase == (if w.alive && w.mics.closings[k].stage == Writing(w.transcribing) then Idle else w.phase)
      && (if w.finishing == Some(k) then x.finishing == None else x.finishing == w.finishing)
      && x.mics.closings[k].stage == Over && x.listening == w.listening
  {
  }

  /** When the page goes, everything still to come was asked for under another number, and nothing is wanted. */
  lemma LeavingOvertakesAll(w: State)
    requires NoneAhead(w)
    ensures var x := Apply(w, Unmounts);
      && !x.alive && !x.wanted && !x.handingOver && x.rec == None
        && x.mics.level == x.mics.media == x.mics.shown == None
      && AllOld(x) && x.transcribing > w.transcribing
      && (w.rec.Some? ==> w.rec.value in x.owed.ended)
  {
  }
}
