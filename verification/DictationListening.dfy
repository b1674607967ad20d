/**
 * When the button says listening, something listens: exactly which events leave it saying so with nothing behind it.
 */
module DictationListening {
  import opened Options
  import opened Dictation
  import opened DictationSafety
  import opened DictationControls

  /** The hand-over still waits for the microphone it asked for, and will take it. */
  predicate Coming(w: State) {
    w.handingOver && exists k :: 0 <= k < |w.owed.asks| && w.owed.asks[k] == Some(w.session)
  }

  predicate WaitsForStop(w: State) { exists k :: 0 <= k < |w.owed.stops| && !w.owed.stops[k].done }

  /** A recogniser that is wanted and has not ended, or a recording, also one that is just being stopped. */
  predicate HeardBy(w: State) {
    if w.engine == Service then w.wanted && w.rec.Some? && w.rec.value !in w.owed.ended
    else w.mics.media.Some? || IsStopping(w.mics.closings)
  }

  predicate IsStopping(cs: seq<Closing>) { exists k :: 0 <= k < |cs| && cs[k].stage == Stopping }

  /**
   * The button says listening and nothing listens, nor will: no hand-over is coming, no refusal is being looked into
   * and no stop is waited for, which would each end it.
   */
  predicate Deaf(w: State) {
    && w.alive && w.listening && !HeardBy(w)
    && !Coming(w) && w.owed.diagnosing == 0 && !WaitsForStop(w)
  }

  /** What the refs keep to: the recogniser there is was made, and a stop waited for is not over. */
  predicate Kept(w: State) {
    && (w.rec.Some? ==> w.rec.value < w.owed.recs)
    && (forall r | r in w.owed.ended :: r < w.owed.recs)
    && (w.stopped.Some? ==> w.stopped.value < |w.owed.stops| && !w.owed.stops[w.stopped.value].done)
  }

  /** A new recorder throws, where one recorded, or the service was listened by until then. */
  predicate NothingElseHears(w: State) {
    if w.engine == Service then !(w.wanted && w.rec.Some? && w.rec.value !in w.owed.ended)
    else !IsStopping(w.mics.closings)
  }

  /** The guards of the branches that leave the button so. */
  predicate Deafens(w: State, e: Event) {
    && w.alive && w.listening && w.owed.diagnosing == 0 && !WaitsForStop(w)
    && match e
       case StartGiven(way) =>
         w.owed.starting == Some(w.session) && !Coming(w)
         && (match way
             case Unable => false
             case OnDevice(throws) => throws && w.engine == Whisper && !IsStopping(w.mics.closings)
             case ByService(how) => how != Begins)
       case AskGiven(k, throws) => TakesOver(w, k) && throws && NothingElseHears(w)
       case Errs(_, fault, able, throws) =>
         fault == Network && able && throws && w.mics.level.Some? && w.mics.level.value !in w.mics.quiet
         && (w.engine == Whisper ==> !IsStopping(w.mics.closings))
       case Ends(r, _, _) => w.handingOver && !Coming(w) && w.engine == Service && w.rec == Some(r)
       case Cancels(_) => w.mics.media.None? && w.finishing.Some? && !HeardBy(w)
       case _ => false
  }

  lemma KeptStop(w: State, throws: bool)
    requires Kept(w)
    ensures Kept(Stop(w, throws))
  {
    StopIs(w, throws);
  }

  lemma KeptControl(w: State, e: Event)
    requires Kept(w) && Enabled(w, e) && ByPerson(e)
    ensures Kept(Apply(w, e))
  {
    match e
    case Presses(throws) => if w.listening { KeptStop(w, throws); }
    case Stops(throws) => KeptStop(w, throws);
    case TwoMinutes(throws) => KeptStop(w, throws);
    case Cancels(throws) =>
      CancelIs(w, throws);
      KeptStop(w.(session := w.session + 1), throws);
    case Unmounts =>
  }

  lemma KeptListening(w: State, how: Begun)
    requires Kept(w)
    ensures Kept(Listen(Recognise(w, how), how))
  {
  }

  lemma KeptGranted(w0: State, way: Way)
    requires Kept(w0) && Enabled(w0, StartGiven(way))
    ensures Kept(Apply(w0, StartGiven(way)))
  {
    if way.ByService? {
      var w := w0.(mics := Received(w0.mics), owed := w0.owed.(starting := None));
      KeptListening(w.(mics := ShowLevel(w.mics, w0.mics.given), engine := Service, wanted := true), way.how);
    }
  }

  lemma KeptTakenOver(w: State, k: nat, throws: bool)
    requires Kept(w) && Enabled(w, AskGiven(k, throws))
    ensures Kept(Apply(w, AskGiven(k, throws)))
  {
  }

  lemma KeptMicrophone(w: State, e: Event)
    requires Kept(w) && Enabled(w, e) && ByMicrophone(e)
    ensures Kept(Apply(w, e))
  {
    match e
    case StartGiven(way) => KeptGranted(w, way);
    case AskGiven(k, throws) => KeptTakenOver(w, k, throws);
    case _ =>
  }

  lemma KeptSwitching(w: State, able: bool, throws: bool)
    requires Kept(w)
    ensures Kept(SwitchToWhisper(w, able, throws))
  {
  }

  lemma KeptError(w: State, e: Event)
    requires Kept(w) && Enabled(w, e) && e.Errs?
    ensures Kept(Apply(w, e))
  {
    if e.fault == Network {
      var rec := if w.rec == Some(e.r) then None else w.rec;
      KeptSwitching(w.(wanted := false, handingOver := true, rec := rec), e.able, e.throws);
    }
  }

  lemma KeptEnd(w: State, e: Event)
    requires Kept(w) && Enabled(w, e) && e.Ends?
    ensures Kept(Apply(w, e))
  {
  }

  lemma KeptEngine(w: State, e: Event)
    requires Kept(w) && Enabled(w, e) && !ByPerson(e) && !ByMicrophone(e)
    ensures Kept(Apply(w, e))
  {
    match e
    case Errs(_, _, _, _) => KeptError(w, e);
    case Ends(_, _, _) => KeptEnd(w, e);
    case _ =>
  }

  lemma {:induction false} KeptAlways(es: seq<Event>)
    requires Possible(MOUNTED, es)
    ensures Kept(After(MOUNTED, es))
    decreases |es|
  {
    if es != [] {
      var w, e := After(MOUNTED, es[..|es| - 1]), es[|es| - 1];
      KeptAlways(es[..|es| - 1]);
      if ByPerson(e) { KeptControl(w, e); } else if ByMicrophone(e) { KeptMicrophone(w, e); } else { KeptEngine(w, e); }
    }
  }

  // ---- one step --------------------------------------------------------------------------------------------------

  lemma StopHears(w: State, throws: bool)
    requires Kept(w) && !Deaf(w)
    ensures !Deaf(Stop(w, throws))
  {
    StopIs(w, throws);
    var x := Stop(w, throws);
    if !w.handingOver && w.finishing.None? && w.mics.media.Some? {
      assert x.mics.closings[|w.mics.closings|].stage == Stopping;
    }
    if !w.handingOver && w.finishing.None? && w.mics.media.None? && w.rec.Some? && !throws {
      assert !x.owed.stops[|w.owed.stops|].done;
    }
  }

  /** With nothing recorded or being finished, Stop waits for the recogniser or ends at once. */
  lemma StopAlone(w: State, throws: bool)
    requires w.mics.media.None? && w.finishing.None?
    ensures !Deaf(Stop(w, throws))
  {
    StopIs(w, throws);
    if !w.handingOver && w.rec.Some? && !throws { assert !Stop(w, throws).owed.stops[|w.owed.stops|].done; }
  }

  lemma CancelHears(w0: State, throws: bool)
    requires Kept(w0) && NoneAhead(w0) && !Deaf(w0)
    ensures Deaf(Cancel(w0, throws)) <==> Deafens(w0, Cancels(throws))
  {
    var w := w0.(session := w0.session + 1);
    CancelIs(w0, throws);
    if w.mics.media.None? && w.finishing.None? { StopAlone(w, throws); }
    else if w.mics.media.None? {
      var x := Cancel(w0, throws);
      assert x == Abandon(w) && HeardBy(x) == HeardBy(w0) && WaitsForStop(x) == WaitsForStop(w0) && !Coming(x);
    }
  }

  lemma ControlHears(w: State, e: Event)
    requires Kept(w) && NoneAhead(w) && !Deaf(w) && Enabled(w, e) && ByPerson(e)
    ensures Deaf(Apply(w, e)) <==> Deafens(w, e)
  {
    match e
    case Presses(throws) => if w.listening { StopHears(w, throws); }
    case Stops(throws) => StopHears(w, throws);
    case TwoMinutes(throws) => StopHears(w, throws);
    case Cancels(throws) => CancelHears(w, throws);
    case Unmounts =>
  }

  lemma StartLeaves(w: State, way: Way)
    requires Enabled(w, StartGiven(way))
    ensures var x := Apply(w, StartGiven(way));
      && x.owed.stops == w.owed.stops && x.owed.asks == w.owed.asks && x.mics.closings == w.mics.closings
      && x.handingOver == w.handingOver && x.session == w.session
  {
  }

  lemma SameWaits(w: State, x: State)
    requires x.owed.stops == w.owed.stops && x.owed.asks == w.owed.asks
    requires x.handingOver == w.handingOver && x.session == w.session
    ensures WaitsForStop(x) == WaitsForStop(w) && Coming(x) == Coming(w)
  {
  }

  lemma StartHears(w: State, way: Way)
    requires Kept(w) && !Deaf(w) && Enabled(w, StartGiven(way))
    ensures Deaf(Apply(w, StartGiven(way))) <==> Deafens(w, StartGiven(way))
  {
    var x := Apply(w, StartGiven(way));
    StartLeaves(w, way);
    SameWaits(w, x);
    match way
    case Unable => UnableHears(w, x);
    case OnDevice(throws) => RecordingHears(w, x, throws);
    case ByService(how) => ServiceHears(w, x, how);
  }

  lemma UnableHears(w: State, x: State)
    requires Kept(w) && !Deaf(w) && Enabled(w, StartGiven(Unable)) && x == Apply(w, StartGiven(Unable))
    requires WaitsForStop(x) == WaitsForStop(w) && Coming(x) == Coming(w)
    ensures Deaf(x) <==> Deafens(w, StartGiven(Unable))
  {
  }

  lemma ServiceHears(w: State, x: State, how: Begun)
    requires Kept(w) && !Deaf(w) && Enabled(w, StartGiven(ByService(how))) && x == Apply(w, StartGiven(ByService(how)))
    requires WaitsForStop(x) == WaitsForStop(w) && Coming(x) == Coming(w)
    ensures Deaf(x) <==> Deafens(w, StartGiven(ByService(how)))
  {
  }

  lemma RecordingHears(w: State, x: State, throws: bool)
    requires Kept(w) && !Deaf(w) && Enabled(w, StartGiven(OnDevice(throws)))
      && x == Apply(w, StartGiven(OnDevice(throws)))
    requires WaitsForStop(x) == WaitsForStop(w) && Coming(x) == Coming(w)
    ensures Deaf(x) <==> Deafens(w, StartGiven(OnDevice(throws)))
  {
  }

  lemma AskHears(w: State, k: nat, throws: bool)
    requires Kept(w) && !Deaf(w) && Enabled(w, AskGiven(k, throws))
    ensures Deaf(Apply(w, AskGiven(k, throws))) <==> Deafens(w, AskGiven(k, throws))
  {
    var x := Apply(w, AskGiven(k, throws));
    assert x.owed.stops == w.owed.stops && x.mics.closings == w.mics.closings;
    OtherAsks(w, k);
  }

  /** An ask answered that was not this session's leaves the others as they were. */
  lemma OtherAsks(w: State, k: nat)
    requires k < |w.owed.asks|
    ensures var x := w.(owed := w.owed.(asks := w.owed.asks[k := None]));
      w.owed.asks[k] != Some(w.session) ==> (Coming(x) <==> Coming(w))
  {
    var x := w.(owed := w.owed.(asks := w.owed.asks[k := None]));
    if w.owed.asks[k] != Some(w.session) && Coming(w) {
      var i :| 0 <= i < |w.owed.asks| && w.owed.asks[i] == Some(w.session);
      assert x.owed.asks[i] == Some(x.session);
    }
  }

  lemma DeniedHears(w: State, k: nat)
    requires !Deaf(w) && Enabled(w, AskDenied(k))
    ensures !Deaf(Apply(w, AskDenied(k)))
  {
    OtherAsks(w, k);
    assert Apply(w, AskDenied(k)).owed.stops == w.owed.stops;
  }

  lemma MicrophoneHears(w: State, e: Event)
    requires Kept(w) && !Deaf(w) && Enabled(w, e) && ByMicrophone(e)
    ensures Deaf(Apply(w, e)) <==> Deafens(w, e)
  {
    match e
    case StartGiven(way) => StartHears(w, way);
    case AskGiven(k, throws) => AskHears(w, k, throws);
    case AskDenied(k) => DeniedHears(w, k);
    case _ =>
  }

  /** Taken over at once, or asked for: deaf only when the recorder throws. */
  lemma SwitchingHears(w: State, able: bool, throws: bool)
    requires w.handingOver && !w.wanted
    ensures var x := SwitchToWhisper(w, able, throws);
      && x.owed.stops == w.owed.stops && x.owed.diagnosing == w.owed.diagnosing && x.alive == w.alive
      && (Deaf(x) <==>
            && w.alive && w.listening && w.owed.diagnosing == 0 && !WaitsForStop(w)
            && able && throws && w.mics.level.Some? && w.mics.level.value !in w.mics.quiet
            && (w.engine == Whisper ==> !IsStopping(w.mics.closings)))
  {
    var x := SwitchToWhisper(w, able, throws);
    assert x.mics.closings == w.mics.closings;
    if |x.owed.asks| > |w.owed.asks| { assert x.owed.asks[|w.owed.asks|] == Some(w.session); }
  }

  lemma ErrorHears(w: State, e: Event)
    requires Kept(w) && !Deaf(w) && Enabled(w, e) && e.Errs?
    ensures Deaf(Apply(w, e)) <==> Deafens(w, e)
  {
    if e.fault == Network {
      var rec := if w.rec == Some(e.r) then None else w.rec;
      var v := w.(wanted := false, handingOver := true, rec := rec);
      assert WaitsForStop(v) == WaitsForStop(w);
      SwitchingHears(v, e.able, e.throws);
    }
  }

  lemma EndHears(w: State, e: Event)
    requires Kept(w) && !Deaf(w) && Enabled(w, e) && e.Ends?
    ensures Deaf(Apply(w, e)) <==> Deafens(w, e)
  {
    var x := Apply(w, e);
    if x.listening { assert x.owed.stops == w.owed.stops && x.owed.asks == w.owed.asks && x.mics == w.mics; }
  }

  lemma WroteHears(w: State, k: nat, words: bool)
    requires !Deaf(w) && Enabled(w, Wrote(k, words))
    ensures !Deaf(Apply(w, Wrote(k, words)))
  {
    var x := Apply(w, Wrote(k, words));
    assert x.owed.stops == w.owed.stops && x.owed.asks == w.owed.asks;
    if IsStopping(w.mics.closings) {
      var i :| 0 <= i < |w.mics.closings| && w.mics.closings[i].stage == Stopping;
      assert x.mics.closings[i].stage == Stopping;
    }
  }

  /** Exactly these events leave the button saying listening with nothing behind it. */
  lemma DeafIff(w: State, e: Event)
    requires Kept(w) && NoneAhead(w) && !Deaf(w) && Enabled(w, e)
    ensures Deaf(Apply(w, e)) <==> Deafens(w, e)
  {
    if ByPerson(e) { ControlHears(w, e); }
    else if ByMicrophone(e) { MicrophoneHears(w, e); }
    else {
      match e
      case Errs(_, _, _, _) => ErrorHears(w, e);
      case Ends(_, _, _) => EndHears(w, e);
      case Wrote(k, words) => WroteHears(w, k, words);
      case _ =>
    }
  }

  // ---- whole runs ------------------------------------------------------------------------------------------------

  predicate NoneDeafens(es: seq<Event>)
    requires Possible(MOUNTED, es)
    decreases |es|
  {
    es == [] || (NoneDeafens(es[..|es| - 1]) && !Deafens(After(MOUNTED, es[..|es| - 1]), es[|es| - 1]))
  }

  /** At every moment of the run: each of its beginnings is one. */
  ghost predicate NeverDeaf(es: seq<Event>) {
    forall n | 0 <= n <= |es| && Possible(MOUNTED, es[..n]) :: !Deaf(After(MOUNTED, es[..n]))
  }

  lemma NeverDeafOneMore(es: seq<Event>)
    requires es != [] && Possible(MOUNTED, es)
    ensures NeverDeaf(es) <==> NeverDeaf(es[..|es| - 1]) && !Deaf(After(MOUNTED, es))
  {
    var n := |es|;
    var front := es[..n - 1];
    assert es[..n] == es && forall i | 0 <= i < n :: front[..i] == es[..i];
    if NeverDeaf(es) {
      assert !Deaf(After(MOUNTED, es[..n]));
      assert forall i | 0 <= i < n && Possible(MOUNTED, front[..i]) :: !Deaf(After(MOUNTED, es[..i]));
    }
    if NeverDeaf(front) && !Deaf(After(MOUNTED, es)) {
      forall i | 0 <= i <= n && Possible(MOUNTED, es[..i])
        ensures !Deaf(After(MOUNTED, es[..i]))
      {
        if i < n { assert !Deaf(After(MOUNTED, front[..i])); }
      }
    }
  }

  /** In any run something listens whenever the button says so exactly when none of these events happens. */
  lemma {:induction false} AlwaysHeardIff(es: seq<Event>)
    requires Possible(MOUNTED, es)
    ensures NeverDeaf(es) <==> NoneDeafens(es)
    decreases |es|
  {
    if es == [] {
      assert es[..0] == es;
    } else {
      var front := es[..|es| - 1];
      AlwaysHeardIff(front);
      NeverDeafOneMore(es);
      KeptAlways(front);
      NoneAheadAlways(front);
      if NeverDeaf(front) {
        assert front[..|front|] == front;
        DeafIff(After(MOUNTED, front), es[|es| - 1]);
      }
    }
  }

  /** So while the button says listening to the service, wanted, its recogniser has not ended. */
  lemma ListensByService(es: seq<Event>)
    requires Possible(MOUNTED, es) && NoneDeafens(es)
    ensures var w := After(MOUNTED, es);
      w.alive && w.listening && w.engine == Service && w.wanted && !w.handingOver && w.owed.diagnosing == 0
        && !WaitsForStop(w)
      ==> w.rec.Some? && w.rec.value < w.owed.recs && w.rec.value !in w.owed.ended
  {
    AlwaysHeardIff(es);
    KeptAlways(es);
    assert es[..|es|] == es;
  }

  /**
   * The last recogniser fails over the network after Stop is over, and asks for a microphone; the next press overtakes
   * that, but the hand-over still counts as under way, so its own recogniser is not started again when it ends.
   */
  lemma NothingListens()
    ensures var es := [Presses(false), StartGiven(ByService(Begins)), Stops(false), WaitIsOver(0),
                       Errs(0, Network, true, false), Presses(false), StartGiven(ByService(Begins)),
                         Ends(1, false, Begins)];
      Possible(MOUNTED, es) && Deaf(After(MOUNTED, es))
  {
    var es := StopsAndFails();
    es := Then(MOUNTED, es, Presses(false));
    es := Then(MOUNTED, es, StartGiven(ByService(Begins)));
    es := Then(MOUNTED, es, Ends(1, false, Begins));
    assert es == [Presses(false), StartGiven(ByService(Begins)), Stops(false), WaitIsOver(0),
                  Errs(0, Network, true, false), Presses(false), StartGiven(ByService(Begins)), Ends(1, false, Begins)];
  }

  lemma StopsAndFails() returns (es: seq<Event>)
    ensures es == [Presses(false), StartGiven(ByService(Begins)), Stops(false), WaitIsOver(0),
      Errs(0, Network, true, false)]
    ensures Possible(MOUNTED, es)
    ensures var w := After(MOUNTED, es);
      && w.alive && w.session == 2 && w.handingOver && !w.listening && w.rec == None && w.stopped == None
        && w.phase == Idle
      && w.owed.asks == [Some(2)] && w.owed.starting == None && w.owed.diagnosing == 0 && w.owed.recs == 1
      && w.owed.ended == {} && w.owed.stops == [Pending(0, true)]
  {
    var none: seq<Event> := [];
    es := Then(MOUNTED, none, Presses(false));
    es := Then(MOUNTED, es, StartGiven(ByService(Begins)));
    ComesToListen();
    es := Then(MOUNTED, es, Stops(false));
    es := Then(MOUNTED, es, WaitIsOver(0));
    es := Then(MOUNTED, es, Errs(0, Network, true, false));
  }

  // ---- what else a step must do ----------------------------------------------------------------------------------

  /**
   * A serious error ends it: the button says off, the service is not started again and the waveform's stream is
   * stopped.
   */
  lemma SeriousEndsIt(w: State, r: nat, able: bool, throws: bool, tired: bool, how: Begun)
    requires Enabled(w, Errs(r, Serious, able, throws))
    ensures var x := Apply(w, Errs(r, Serious, able, throws));
      && !x.listening && x.phase == Idle && !x.wanted && x.mics.level == None
      && (w.mics.level.Some? ==> w.mics.level.value !in x.mics.open)
      && Enabled(x, Ends(r, tired, how)) && Apply(x, Ends(r, tired, how)).owed.recs == w.owed.recs
  {
  }

  /** Words reach the box exactly when they come, for the newest recording, while the page is there. */
  lemma WrittenIff(w: State, e: Event, k: nat)
    requires Enabled(w, e)
    ensures k in Apply(w, e).owed.written <==>
      k in w.owed.written
      || (e == Wrote(k, true) && w.alive && w.mics.closings[k].stage == Writing(w.transcribing))
  {
    match e
    case Presses(throws) => if w.listening { StopWritesNothing(w, throws); }
    case Stops(throws) => StopWritesNothing(w, throws);
    case TwoMinutes(throws) => StopWritesNothing(w, throws);
    case Cancels(throws) =>
      CancelIs(w, throws);
      StopWritesNothing(w.(session := w.session + 1), throws);
    case Wrote(_, _) =>
    case _ => OthersWriteNothing(w, e);
  }

  lemma StopWritesNothing(w: State, throws: bool)
    ensures Stop(w, throws).owed.written == w.owed.written
  {
    StopIs(w, throws);
  }

  lemma StartWritesNothing(w: State, way: Way)
    requires Enabled(w, StartGiven(way))
    ensures StartGranted(w, way).owed.written == w.owed.written
  {
  }

  lemma MicrophoneWritesNothing(w: State, e: Event)
    requires Enabled(w, e) && ByMicrophone(e)
    ensures Apply(w, e).owed.written == w.owed.written
  {
    if e.StartGiven? { StartWritesNothing(w, e.way); }
  }

  lemma EngineWritesNothing(w: State, e: Event)
    requires Enabled(w, e) && (e.Errs? || e.Ends? || e.WaitIsOver?)
    ensures Apply(w, e).owed.written == w.owed.written
  {
  }

  lemma OthersWriteNothing(w: State, e: Event)
    requires Enabled(w, e) && !e.Presses? && !e.Stops? && !e.TwoMinutes? && !e.Cancels? && !e.Wrote?
    ensures Apply(w, e).owed.written == w.owed.written
  {
    if ByMicrophone(e) { MicrophoneWritesNothing(w, e); }
    else if e.Errs? || e.Ends? || e.WaitIsOver? { EngineWritesNothing(w, e); }
  }

  /** While a recording is being written out a press does nothing. */
  lemma NoPressWhileWriting(w: State, k: nat, throws: bool)
    requires Enabled(w, Recorded(k))
    ensures var x := Apply(w, Recorded(k)); !x.listening && Apply(x, Presses(throws)) == x
  {
  }

  /** What is held for listening is on show from the moment it is. */
  lemma ShownAtOnce(w: State, e: Event)
    requires Enabled(w, e) && (e.StartGiven? || e.AskGiven? || e.Errs?)
    ensures var x := Apply(w, e);
      && (x.mics.media != w.mics.media && x.mics.media.Some? ==>
        x.mics.shown == x.mics.media && x.listening && x.phase == Hearing)
      && (x.mics.level != w.mics.level && x.mics.level.Some? ==> x.mics.shown == x.mics.level)
  {
    match e
    case StartGiven(way) => StartShows(w, way);
    case AskGiven(k, throws) => AskShows(w, k, throws);
    case Errs(_, _, _, _) => ErrorShows(w, e);
  }

  lemma StartShows(w: State, way: Way)
    requires Enabled(w, StartGiven(way))
    ensures var x := Apply(w, StartGiven(way));
      && (x.mics.media != w.mics.media && x.mics.media.Some? ==>
        x.mics.shown == x.mics.media && x.listening && x.phase == Hearing)
      && (x.mics.level != w.mics.level && x.mics.level.Some? ==> x.mics.shown == x.mics.level)
  {
  }

  lemma AskShows(w: State, k: nat, throws: bool)
    requires Enabled(w, AskGiven(k, throws))
    ensures var x := Apply(w, AskGiven(k, throws));
      && (x.mics.media != w.mics.media && x.mics.media.Some? ==>
        x.mics.shown == x.mics.media && x.listening && x.phase == Hearing)
      && x.mics.level == w.mics.level
  {
  }

  lemma ErrorShows(w: State, e: Event)
    requires Enabled(w, e) && e.Errs?
    ensures var x := Apply(w, e);
      && (x.mics.media != w.mics.media && x.mics.media.Some? ==>
        x.mics.shown == x.mics.media && x.listening && x.phase == Hearing)
      && (x.mics.level == w.mics.level || x.mics.level == None)
  {
  }
}
