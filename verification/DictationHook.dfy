/** The dictation hook itself: its methods reassign its refs, and each is the event of a run that it is called for. */
module DictationHook {
  import opened Options
  import opened Dictation
  import DictationControls
  import DictationSafety

  /** Some run of events leads here, so that what holds of every run holds of the hook. */
  ghost predicate Reached(w: State) { exists es | Possible(MOUNTED, es) :: After(MOUNTED, es) == w }

  lemma Reaches(w: State, e: Event)
    requires Enabled(w, e)
    ensures Reached(w) ==> Reached(Apply(w, e))
  {
    if Reached(w) {
      var es :| Possible(MOUNTED, es) && After(MOUNTED, es) == w;
      var all := es + [e];
      assert all[..|all| - 1] == es;
      assert Possible(MOUNTED, all);
    }
  }

  /** The hook's refs; `owed` is what the browser still owes it. */
  class Hook {
    var session: nat
    var transcribing: nat
    var alive: bool
    var handingOver: bool
    var wanted: bool
    var engine: Engine
    var rec: Option<nat>
    var stopped: Option<nat>
    var finishing: Option<nat>
    var listening: bool
    var phase: Phase
    var mics: Mics
    var owed: Owed

    function Now(): State
      reads this
    {
      State(session, transcribing, alive, handingOver, wanted, engine, rec, stopped, finishing, listening, phase,
            mics, owed)
    }

    ghost predicate Valid()
      reads this
    {
      Reached(Now())
    }

    constructor ()
      ensures Now() == MOUNTED && Valid()
    {
      var none: seq<Event> := [];
      session, transcribing, alive, handingOver, wanted, engine := 0, 0, true, false, false, Service;
      rec, stopped, finishing, listening, phase := None, None, None, false, Idle;
      mics := Mics(None, None, None, [], 0, {}, {}, {});
      owed := Owed(None, [], 0, [], {}, 0, {});
      new;
      assert After(MOUNTED, none) == Now();
    }

    /** What the theorems about runs say of the hook as it is: whose each microphone is, and what Stop will settle. */
    lemma StandsAsRunsDo(s: Stream, throws: bool)
      requires Valid()
      ensures DictationSafety.Holders(mics, s) == if s in mics.open then 1 else 0
      ensures var w := Now();
        DictationControls.GivesAllBack(Stop(w, throws)) <==>
          !w.alive || (DictationControls.CleanStop(w) && DictationControls.AllEnded(w))
    {
      var es :| Possible(MOUNTED, es) && After(MOUNTED, es) == Now();
      DictationSafety.OneHolderEach(es, s);
      DictationControls.NoneAheadAlways(es);
      DictationControls.StopGivesAllBackIff(Now(), throws);
    }

    method Hides(s: Stream)
      modifies this`mics
      ensures mics == HideMic(old(mics), s)
    {
      if mics.shown != Some(s) { return; }
      mics := mics.(shown := None);
    }

    method ReleasesLevel()
      modifies this`mics
      ensures mics == ReleaseLevel(old(mics))
    {
      if mics.level.None? { return; }
      var s := mics.level.value;
      mics := mics.(level := None);
      mics := mics.(open := mics.open - {s});
      Hides(s);
    }

    method TakesLevel() returns (s: Option<Stream>)
      modifies this`mics
      ensures (mics, s) == TakeLevel(old(mics))
    {
      s := mics.level;
      mics := mics.(level := None);
      if s.Some? && s.value !in mics.quiet { return; }
      if s.Some? {
        mics := mics.(open := mics.open - {s.value});
        Hides(s.value);
      }
      s := None;
    }

    method DropsRecording()
      modifies this`mics
      ensures mics == DropRecording(old(mics))
    {
      var m := mics.media;
      mics := mics.(media := None);
      if m.None? { return; }
      mics := mics.(open := mics.open - {m.value});
    }

    method GoesIdle()
      modifies this`mics, this`listening, this`phase
      ensures mics == ReleaseLevel(old(mics)) && !listening && phase == Idle
    {
      ReleasesLevel();
      listening := false;
      phase := Idle;
    }

    method StartsWhisper(s: Stream, token: nat, throws: bool)
      modifies this
      ensures Now() == StartWhisper(old(Now()), s, token, throws)
    {
      if token != session || !alive {
        mics := mics.(open := mics.open - {s});
        return;
      }
      DropsRecording();
      if throws {
        mics := mics.(orphans := mics.orphans + {s});
        return;
      }
      mics := mics.(media := Some(s));
      engine := Whisper;
      mics := mics.(shown := Some(s));
      listening := true;
      phase := Hearing;
    }

    /** The hand-over: at once with the waveform's stream, else an ask more in `owed.asks`. */
    method SwitchesToWhisper(able: bool, throws: bool)
      modifies this
      ensures Now() == SwitchToWhisper(old(Now()), able, throws)
    {
      if !able {
        handingOver := false;
        GoesIdle();
        return;
      }
      var s := TakesLevel();
      if s.None? {
        owed := owed.(asks := owed.asks + [Some(session)]);
        return;
      }
      if !alive {
        mics := mics.(open := mics.open - {s.value});
        Hides(s.value);
        return;
      }
      handingOver := false;
      StartsWhisper(s.value, session, throws);
    }

    method AskIsGranted(k: nat, throws: bool)
      requires k < |owed.asks| && owed.asks[k].Some?
      modifies this
      ensures Now() == AskGranted(old(Now()), k, throws)
    {
      var s, token := mics.given, owed.asks[k].value;
      mics := mics.(given := mics.given + 1, open := mics.open + {s});
      owed := owed.(asks := owed.asks[k := None]);
      if !handingOver || token != session || !alive {
        mics := mics.(open := mics.open - {s});
        Hides(s);
        return;
      }
      handingOver := false;
      StartsWhisper(s, token, throws);
    }

    method ShowsLevel(s: Stream)
      modifies this`mics
      ensures mics == ShowLevel(old(mics), s)
    {
      ReleasesLevel();
      mics := mics.(level := Some(s));
      mics := mics.(shown := Some(s));
    }

    method Recognises(how: Begun)
      modifies this`rec, this`owed
      ensures Now() == Recognise(old(Now()), how)
    {
      if how == NoRecogniser { return; }
      rec := Some(owed.recs);
      owed := owed.(recs := owed.recs + 1);
    }

    method Listens(how: Begun)
      modifies this`mics, this`wanted, this`listening, this`phase
      ensures Now() == Listen(old(Now()), how)
    {
      if how == Begins {
        listening := true;
        phase := Hearing;
      } else {
        wanted := false;
        ReleasesLevel();
      }
    }

    method ServiceListens(s: Stream, how: Begun)
      modifies this
      ensures var w := old(Now());
        Now() == Listen(Recognise(w.(mics := ShowLevel(w.mics, s), engine := Service, wanted := true), how), how)
    {
      ShowsLevel(s);
      engine := Service;
      wanted := true;
      Recognises(how);
      Listens(how);
    }

    method StartIsGranted(way: Way)
      requires owed.starting.Some?
      modifies this
      ensures Now() == StartGranted(old(Now()), way)
    {
      var s, token := mics.given, owed.starting.value;
      mics := mics.(given := mics.given + 1, open := mics.open + {s});
      owed := owed.(starting := None);
      if token != session || !alive || way == Unable {
        mics := mics.(open := mics.open - {s});
        return;
      }
      if way.OnDevice? {
        StartsWhisper(s, token, way.throws);
        return;
      }
      ServiceListens(s, way.how);
    }

    method Finishes(k: nat)
      requires k < |owed.stops|
      modifies this`owed, this`stopped, this`rec, this`mics, this`listening, this`phase
      ensures Now() == Finish(old(Now()), k)
    {
      if owed.stops[k].done { return; }
      owed := owed.(stops := owed.stops[k := owed.stops[k].(done := true)]);
      stopped := None;
      if rec == Some(owed.stops[k].r) { rec := None; }
      GoesIdle();
    }

    method RecogniserFails(r: nat, fault: Fault, able: bool, throws: bool)
      modifies this
      ensures Now() == RecError(old(Now()), r, fault, able, throws)
    {
      if fault == Passing { return; }
      wanted := false;
      if fault == Serious {
        GoesIdle();
        return;
      }
      handingOver := true;
      if rec == Some(r) { rec := None; }
      SwitchesToWhisper(able, throws);
    }

    /** `tired`: no words for the fourth time in a row; `how`: how starting it again goes. */
    method RecogniserEnds(r: nat, tired: bool, how: Begun)
      modifies this
      ensures Now() == RecEnd(old(Now()), r, tired, how)
    {
      owed := owed.(ended := owed.ended + {r});
      if handingOver || engine == Whisper { return; }
      if stopped.Some? && stopped.value < |owed.stops| {
        var k := stopped.value;
        stopped := None;
        Finishes(k);
        return;
      }
      if wanted && !tired {
        Recognises(how);
        if how == Begins { return; }
      }
      wanted := false;
      GoesIdle();
    }

    method StopsRecogniser(throws: bool)
      modifies this`wanted, this`owed, this`stopped, this`rec, this`mics, this`listening, this`phase
      ensures Now() == StopRecogniser(old(Now()), throws)
    {
      wanted := false;
      if rec.None? {
        GoesIdle();
        return;
      }
      stopped := Some(|owed.stops|);
      owed := owed.(stops := owed.stops + [Pending(rec.value, false)]);
      if throws { Finishes(|owed.stops| - 1); }
    }

    method StopsListening(throws: bool)
      modifies this`session, this`handingOver, this`finishing, this`wanted, this`owed, this`stopped, this`rec
      modifies this`mics, this`listening, this`phase
      ensures Now() == Stop(old(Now()), throws)
    {
      session := session + 1;
      if handingOver {
        handingOver := false;
        GoesIdle();
        return;
      }
      if finishing.Some? { return; }
      if mics.media.Some? {
        finishing := Some(|mics.closings|);
        mics := mics.(media := None, closings := mics.closings + [Closing(mics.media.value, Stopping)]);
        return;
      }
      StopsRecogniser(throws);
    }

    method Discards()
      requires mics.media.Some?
      modifies this`mics, this`listening, this`phase
      ensures Now() == GoIdle(Discard(old(Now())))
    {
      var s := mics.media.value;
      DropsRecording();
      Hides(s);
      GoesIdle();
    }

    method Abandons()
      modifies this`transcribing, this`finishing, this`phase
      ensures Now() == Abandon(old(Now()))
    {
      transcribing := transcribing + 1;
      finishing := None;
      phase := Idle;
    }

    method GivesUpNow(throws: bool)
      modifies this
      ensures Now() == Cancelled(old(Now()), throws)
    {
      if mics.media.Some? {
        Discards();
      } else if finishing.Some? {
        Abandons();
      } else {
        StopsListening(throws);
      }
    }

    method GivesUp(throws: bool)
      modifies this
      ensures Now() == Cancel(old(Now()), throws)
    {
      session := session + 1;
      GivesUpNow(throws);
    }

    method Pressed(throws: bool)
      modifies this
      ensures Now() == Toggle(old(Now()), throws)
    {
      if listening {
        StopsListening(throws);
        return;
      }
      if phase == Transcribing || owed.starting.Some? { return; }
      session := session + 1;
      owed := owed.(starting := Some(session));
    }

    method RecorderIsDone(k: nat)
      requires k < |mics.closings|
      modifies this
      ensures Now() == RecorderDone(old(Now()), k)
    {
      var s := mics.closings[k].stream;
      mics := mics.(open := mics.open - {s});
      Hides(s);
      listening := false;
      phase := Transcribing;
      transcribing := transcribing + 1;
      mics := mics.(closings := mics.closings[k := Closing(s, Writing(transcribing))]);
    }

    method WritesOut(k: nat, words: bool)
      requires k < |mics.closings| && mics.closings[k].stage.Writing?
      modifies this`mics, this`owed, this`phase, this`finishing
      ensures Now() == WrittenOut(old(Now()), k, words)
    {
      var current := mics.closings[k].stage.mine == transcribing && alive;
      mics := mics.(closings := mics.closings[k := mics.closings[k].(stage := Over)]);
      if current && words { owed := owed.(written := owed.written + {k}); }
      if current { phase := Idle; }
      if finishing == Some(k) { finishing := None; }
    }

    method LetsGo()
      modifies this`mics
      ensures mics == ReleaseLevel(DropRecording(old(mics))).(shown := None)
    {
      DropsRecording();
      ReleasesLevel();
      mics := mics.(shown := None);
    }

    method Detaches()
      modifies this`alive, this`session, this`transcribing, this`wanted, this`handingOver, this`owed, this`rec
      ensures Now() == Detach(old(Now()))
    {
      alive := false;
      session, transcribing := session + 1, transcribing + 1;
      wanted, handingOver := false, false;
      if rec.Some? { owed := owed.(ended := owed.ended + {rec.value}); }
      rec := None;
    }

    method Unmounted()
      modifies this
      ensures Now() == Unmount(old(Now()))
    {
      Detaches();
      LetsGo();
    }

    method StartIsRefused()
      modifies this`owed
      ensures Now() == old(Now()).(owed := old(owed).(starting := None))
    {
      owed := owed.(starting := None);
    }

    method AskIsDenied(k: nat)
      requires k < |owed.asks| && owed.asks[k].Some?
      modifies this`owed, this`handingOver
      ensures Now() == AskRefused(old(Now()), k)
    {
      var token := owed.asks[k];
      owed := owed.(asks := owed.asks[k := None]);
      if !handingOver || token != Some(session) { return; }
      handingOver := false;
      owed := owed.(diagnosing := owed.diagnosing + 1);
    }

    method IsDiagnosed()
      requires owed.diagnosing > 0
      modifies this`owed, this`mics, this`listening, this`phase
      ensures Now() == GoIdle(old(Now()).(owed := old(owed).(diagnosing := old(owed).diagnosing - 1)))
    {
      owed := owed.(diagnosing := owed.diagnosing - 1);
      GoesIdle();
    }

    /** What the person does. */
    method Obeys(e: Event)
      requires Valid() && Enabled(Now(), e) && ByPerson(e)
      modifies this
      ensures Valid() && Now() == Apply(old(Now()), e)
    {
      Reaches(Now(), e);
      match e {
        case Presses(throws) => Pressed(throws);
        case Stops(throws) => StopsListening(throws);
        case Cancels(throws) => GivesUp(throws);
        case TwoMinutes(throws) => StopsListening(throws);
        case Unmounts => Unmounted();
      }
    }

    /** An answer to a question for the microphone, or one gone quiet. */
    method IsAnswered(e: Event)
      requires Valid() && Enabled(Now(), e) && ByMicrophone(e)
      modifies this
      ensures Valid() && Now() == Apply(old(Now()), e)
    {
      Reaches(Now(), e);
      match e {
        case StartGiven(way) => StartIsGranted(way);
        case StartRefused => StartIsRefused();
        case AskGiven(k, throws) => AskIsGranted(k, throws);
        case AskDenied(k) => AskIsDenied(k);
        case Diagnosed => IsDiagnosed();
        case GoesQuiet(s) => mics := mics.(quiet := mics.quiet + {s});
      }
    }

    /** What the engines report, and the end of a wait. */
    method IsTold(e: Event)
      requires Valid() && Enabled(Now(), e) && !ByPerson(e) && !ByMicrophone(e)
      modifies this
      ensures Valid() && Now() == Apply(old(Now()), e)
    {
      Reaches(Now(), e);
      match e {
        case Errs(r, fault, able, throws) => RecogniserFails(r, fault, able, throws);
        case Ends(r, tired, how) => RecogniserEnds(r, tired, how);
        case WaitIsOver(k) => Finishes(k);
        case Recorded(k) => RecorderIsDone(k);
        case Wrote(k, words) => WritesOut(k, words);
      }
    }
  }
}
