/** Dictation in every order of events: whose each microphone is, when one is lost and when one is left open. */
module DictationSafety {
  import opened Options
  import opened Dictation

  // ---- who holds what --------------------------------------------------------------------------------------------

  predicate Finishes(cs: seq<Closing>, s: Stream) {
    exists k | 0 <= k < |cs| :: cs[k] == Closing(s, Stopping)
  }

  predicate HasHolder(m: Mics, hand: Option<Stream>, s: Stream) {
    m.level == Some(s) || m.media == Some(s) || Finishes(m.closings, s) || s in m.orphans || hand == Some(s)
  }

  /**
   * Each open stream is the waveform's, a recording's or a finishing recording's, and only one of these, or it is lost;
   * while a step is under way, one more may be in its `hand`.
   */
  ghost predicate Held(m: Mics, hand: Option<Stream>) {
    && (forall s :: s in m.open <==> HasHolder(m, hand, s))
    && (forall s | s in m.open :: s < m.given)
    && (forall k | 0 <= k < |m.closings| :: Apart(m, m.closings[k], hand))
    && (forall i, j | 0 <= i < j < |m.closings| :: m.closings[i].stream != m.closings[j].stream)
    && (m.level.Some? ==> m.media != m.level && m.level.value !in m.orphans)
    && (m.media.Some? ==> m.media.value !in m.orphans)
    && (hand.Some? ==> m.level != hand && m.media != hand && hand.value !in m.orphans)
  }

  /** A recording that was stopped has nothing to do with what is held now. */
  ghost predicate Apart(m: Mics, c: Closing, hand: Option<Stream>) {
    c.stream < m.given && m.media != Some(c.stream) && m.level != Some(c.stream) && hand != Some(c.stream)
      && c.stream !in m.orphans
  }

  /** What is on show is open, unless a recorder ever threw. */
  ghost predicate ShowsOpen(m: Mics) {
    m.shown.Some? && m.orphans == {} ==> m.shown.value in m.open
  }

  ghost predicate Inv(w: State) {
    && Held(w.mics, None) && ShowsOpen(w.mics)
    && (!w.alive ==> w.mics.level == None && w.mics.media == None && w.mics.shown == None)
    && (w.finishing.Some? ==> w.finishing.value < |w.mics.closings|)
    && (forall k | 0 <= k < |w.mics.closings| && w.mics.closings[k].stage.Writing? ::
      w.mics.closings[k].stage.mine <= w.transcribing)
  }

  // ---- the streams, step by step ---------------------------------------------------------------------------------

  lemma ReleasingKeeps(m: Mics, hand: Option<Stream>)
    requires Held(m, hand)
    ensures Held(ReleaseLevel(m), hand) && (ShowsOpen(m) ==> ShowsOpen(ReleaseLevel(m)))
  {
    forall k | 0 <= k < |m.closings|
      ensures Apart(ReleaseLevel(m), m.closings[k], hand)
    {
      assert Apart(m, m.closings[k], hand);
    }
  }

  lemma DroppingKeeps(m: Mics, hand: Option<Stream>)
    requires Held(m, hand)
    ensures Held(DropRecording(m), hand)
  {
    forall k | 0 <= k < |m.closings|
      ensures Apart(DropRecording(m), m.closings[k], hand)
    {
      assert Apart(m, m.closings[k], hand);
    }
  }

  lemma GivingBackKeeps(m: Mics, s: Stream)
    requires Held(m, Some(s))
    ensures Held(StopTracks(m, s), None) && Held(HideMic(StopTracks(m, s), s), None)
  {
    var v := StopTracks(m, s);
    forall k | 0 <= k < |m.closings| ensures Apart(v, m.closings[k], None) { assert Apart(m, m.closings[k], Some(s)); }
    assert Held(v, None);
    forall k | 0 <= k < |m.closings|
      ensures Apart(HideMic(v, s), m.closings[k], None)
    {
      assert Apart(v, m.closings[k], None);
    }
  }

  lemma RecordingKeeps(m: Mics, s: Stream, throws: bool)
    requires Held(m, Some(s))
    ensures Held(Record(m, s, throws), None) && ShowsOpen(Record(m, s, throws))
  {
    DroppingKeeps(m, Some(s));
    var d, v := DropRecording(m), Record(m, s, throws);
    forall k | 0 <= k < |m.closings| ensures Apart(v, m.closings[k], None) { assert Apart(d, m.closings[k], Some(s)); }
  }

  lemma ShowingLevelKeeps(m: Mics, s: Stream)
    requires Held(m, Some(s)) && ShowsOpen(m)
    ensures Held(ShowLevel(m, s), None) && ShowsOpen(ShowLevel(m, s))
  {
    ReleasingKeeps(m, Some(s));
    var d, v := ReleaseLevel(m), ShowLevel(m, s);
    forall k | 0 <= k < |m.closings| ensures Apart(v, m.closings[k], None) { assert Apart(d, m.closings[k], Some(s)); }
  }

  /** A stream just given is new, and in hand. */
  lemma ReceivingKeeps(m: Mics)
    requires Held(m, None) && ShowsOpen(m)
    ensures Held(Received(m), Some(m.given)) && ShowsOpen(Received(m)) && (m.orphans == {} ==> m.shown != Some(m.given))
  {
    var v := Received(m);
    assert m.given !in m.open;
    forall k | 0 <= k < |m.closings|
      ensures Apart(v, m.closings[k], Some(m.given))
    {
      assert Apart(m, m.closings[k], None);
    }
  }

  lemma TakingKeeps(m: Mics)
    requires Held(m, None) && ShowsOpen(m)
    ensures Held(TakeLevel(m).0, TakeLevel(m).1) && ShowsOpen(TakeLevel(m).0)
  {
    ReleasingKeeps(m, None);
    var (v, s) := TakeLevel(m);
    forall k | 0 <= k < |m.closings| ensures Apart(v, m.closings[k], s) { assert Apart(m, m.closings[k], None); }
  }

  lemma ClosingKeeps(m: Mics)
    requires Held(m, None) && ShowsOpen(m) && m.media.Some?
    ensures Held(Close(m), None) && ShowsOpen(Close(m))
  {
    var v := Close(m);
    assert v.closings[|m.closings|] == Closing(m.media.value, Stopping);
    forall s: Stream ensures Finishes(v.closings, s) <==> Finishes(m.closings, s) || m.media == Some(s) {
      if Finishes(m.closings, s) {
        var k :| 0 <= k < |m.closings| && m.closings[k] == Closing(s, Stopping);
        assert v.closings[k] == Closing(s, Stopping);
      }
    }
    assert forall k | 0 <= k < |m.closings| :: Apart(m, m.closings[k], None);
    assert HasHolder(m, None, m.media.value);
    forall k | 0 <= k < |v.closings| ensures Apart(v, v.closings[k], None) {
      if k < |m.closings| { assert Apart(m, m.closings[k], None); }
    }
  }

  lemma ClosedKeeps(m: Mics, k: nat, mine: nat)
    requires Held(m, None) && ShowsOpen(m) && k < |m.closings| && m.closings[k].stage == Stopping
    ensures Held(Closed(m, k, mine), None) && ShowsOpen(Closed(m, k, mine))
  {
    var s := m.closings[k].stream;
    var v := Closed(m, k, mine);
    assert Apart(m, m.closings[k], None);
    FinishingWithout(m.closings, k, Writing(mine));
    forall j | 0 <= j < |v.closings| ensures Apart(v, v.closings[j], None) { assert Apart(m, m.closings[j], None); }
  }

  lemma FinishingWithout(cs: seq<Closing>, k: nat, stage: Stage)
    requires k < |cs| && stage != Stopping
    requires forall i, j | 0 <= i < j < |cs| :: cs[i].stream != cs[j].stream
    ensures forall s :: Finishes(cs[k := Closing(cs[k].stream, stage)], s) <==> Finishes(cs, s) && s != cs[k].stream
  {
    var ds := cs[k := Closing(cs[k].stream, stage)];
    forall s: Stream ensures Finishes(ds, s) <==> Finishes(cs, s) && s != cs[k].stream {
      if Finishes(cs, s) && s != cs[k].stream {
        var j :| 0 <= j < |cs| && cs[j] == Closing(s, Stopping);
        assert ds[j] == Closing(s, Stopping);
      }
      if Finishes(ds, s) {
        var j :| 0 <= j < |ds| && ds[j] == Closing(s, Stopping);
        assert cs[j] == Closing(s, Stopping);
      }
    }
  }

  lemma WritingOutKeeps(m: Mics, k: nat)
    requires Held(m, None) && k < |m.closings| && m.closings[k].stage.Writing?
    ensures Held(m.(closings := m.closings[k := m.closings[k].(stage := Over)]), None)
  {
    var v := m.(closings := m.closings[k := m.closings[k].(stage := Over)]);
    forall s: Stream ensures Finishes(v.closings, s) <==> Finishes(m.closings, s) {
      if Finishes(m.closings, s) {
        var j :| 0 <= j < |m.closings| && m.closings[j] == Closing(s, Stopping);
        assert v.closings[j] == Closing(s, Stopping);
      }
    }
    forall j | 0 <= j < |v.closings| ensures Apart(v, v.closings[j], None) { assert Apart(m, m.closings[j], None); }
  }

  // ---- one step keeps it -----------------------------------------------------------------------------------------

  /** Only what does not concern the streams has changed. */
  ghost predicate Like(w: State, v: State) {
    && v.mics == w.mics && v.alive == w.alive && v.transcribing >= w.transcribing
    && (v.finishing == w.finishing || v.finishing == None)
  }

  /** The streams have changed hands, and nothing else that concerns them. */
  lemma HandsKeep(w: State, v: State)
    requires Inv(w) && Held(v.mics, None) && ShowsOpen(v.mics) && v.mics.closings == w.mics.closings
    requires v.alive && w.alive && v.transcribing == w.transcribing && v.finishing == w.finishing
    ensures Inv(v)
  {
  }

  lemma LikeKeeps(w: State, v: State)
    requires Inv(w) && Like(w, v)
    ensures Inv(v)
  {
  }

  lemma IdlingKeeps(w: State, v: State)
    requires Inv(w) && Like(w, v)
    ensures Inv(GoIdle(v))
  {
    ReleasingKeeps(w.mics, None);
  }

  lemma FinishKeeps(w: State, v: State, k: nat)
    requires Inv(w) && Like(w, v) && k < |v.owed.stops|
    ensures Inv(Finish(v, k))
  {
    if v.owed.stops[k].done { LikeKeeps(w, v); }
    else {
      var u := v.(owed := v.owed.(stops := v.owed.stops[k := v.owed.stops[k].(done := true)]), stopped := None,
                  rec := if v.rec == Some(v.owed.stops[k].r) then None else v.rec);
      IdlingKeeps(w, u);
    }
  }

  lemma StoppingRecogniserKeeps(w0: State, w: State, throws: bool)
    requires Inv(w0) && Like(w0, w)
    ensures Inv(StopRecogniser(w, throws))
  {
    if w.rec.None? {
      IdlingKeeps(w0, w.(wanted := false));
    } else {
      var v := w.(wanted := false, stopped := Some(|w.owed.stops|),
                  owed := w.owed.(stops := w.owed.stops + [Pending(w.rec.value, false)]));
      if throws { FinishKeeps(w0, v, |w.owed.stops|); } else { LikeKeeps(w0, v); }
    }
  }

  lemma FinishingRecordingKeeps(w0: State, w: State)
    requires Inv(w0) && Like(w0, w) && w.mics.media.Some?
    ensures Inv(FinishRecording(w))
  {
    ClosingKeeps(w.mics);
  }

  lemma StopKeeps(v: State, w0: State, throws: bool)
    requires Inv(v) && Like(v, w0)
    ensures Inv(Stop(w0, throws))
  {
    var w := w0.(session := w0.session + 1);
    StopIs(w0, throws);
    if w.handingOver { IdlingKeeps(v, w.(handingOver := false)); }
    else if w.finishing.Some? { LikeKeeps(v, w); }
    else if w.mics.media.Some? { FinishingRecordingKeeps(v, w); }
    else { StoppingRecogniserKeeps(v, w, throws); }
  }

  lemma HidingDroppedKeeps(m: Mics)
    requires Held(m, None) && ShowsOpen(m) && m.media.Some?
    ensures Held(HideMic(DropRecording(m), m.media.value), None) && ShowsOpen(HideMic(DropRecording(m), m.media.value))
  {
    DroppingKeeps(m, None);
    var d := DropRecording(m);
    var v := HideMic(d, m.media.value);
    forall k | 0 <= k < |v.closings| ensures Apart(v, v.closings[k], None) { assert Apart(d, d.closings[k], None); }
  }

  lemma DiscardingKeeps(w0: State, w: State)
    requires Inv(w0) && Like(w0, w) && w.finishing == w0.finishing && w.transcribing == w0.transcribing
      && w.mics.media.Some?
    ensures Inv(Discard(w))
  {
    HidingDroppedKeeps(w.mics);
    HandsKeep(w0, Discard(w));
  }

  lemma CancelKeeps(w0: State, throws: bool)
    requires Inv(w0)
    ensures Inv(Cancel(w0, throws))
  {
    var w := w0.(session := w0.session + 1);
    CancelIs(w0, throws);
    if w.mics.media.Some? {
      DiscardingKeeps(w0, w);
      IdlingKeeps(Discard(w), Discard(w));
    } else if w.finishing.Some? {
      LikeKeeps(w0, Abandon(w));
    } else {
      StopKeeps(w0, w, throws);
    }
  }

  lemma StartingKeeps(w: State, s: Stream, throws: bool)
    requires Held(w.mics, Some(s)) && w.alive && Inv(w.(mics := StopTracks(w.mics, s)))
    ensures Inv(StartWhisper(w, s, w.session, throws))
  {
    RecordingKeeps(w.mics, s, throws);
  }

  /** With a new stream in hand: to give it back keeps everything as it was. */
  lemma NewStream(w: State)
    requires Inv(w)
    ensures Held(Received(w.mics), Some(w.mics.given)) && ShowsOpen(Received(w.mics))
    ensures Inv(w.(mics := StopTracks(Received(w.mics), w.mics.given)))
    ensures Inv(w.(mics := HideMic(StopTracks(Received(w.mics), w.mics.given), w.mics.given)))
  {
    ReceivingKeeps(w.mics);
    GivingBackKeeps(Received(w.mics), w.mics.given);
  }

  lemma ListenKeeps(w: State, how: Begun)
    requires Inv(w) && w.alive
    ensures Inv(Listen(w, how))
  {
    if how == Begins { LikeKeeps(w, w.(listening := true, phase := Hearing)); }
    else {
      ReleasingKeeps(w.mics, None);
      HandsKeep(w, w.(mics := ReleaseLevel(w.mics), wanted := false));
    }
  }

  lemma ListeningKeeps(w0: State, w: State, s: Stream, how: Begun)
    requires Inv(w0) && Held(w.mics, Some(s)) && ShowsOpen(w.mics) && w.mics.closings == w0.mics.closings
    requires w.alive && w0.alive && w.transcribing == w0.transcribing && w.finishing == w0.finishing
    ensures Inv(Listen(Recognise(w.(mics := ShowLevel(w.mics, s), engine := Service, wanted := true), how), how))
  {
    ShowingLevelKeeps(w.mics, s);
    var u := w.(mics := ShowLevel(w.mics, s), engine := Service, wanted := true);
    HandsKeep(w0, u);
    LikeKeeps(u, Recognise(u, how));
    ListenKeeps(Recognise(u, how), how);
  }

  lemma StartGrantedKeeps(w0: State, way: Way)
    requires Inv(w0) && w0.owed.starting.Some?
    ensures Inv(StartGranted(w0, way))
  {
    NewStream(w0);
    var s := w0.mics.given;
    var w := w0.(mics := Received(w0.mics), owed := w0.owed.(starting := None));
    LikeKeeps(w0.(mics := StopTracks(w.mics, s)), w.(mics := StopTracks(w.mics, s)));
    if w0.owed.starting.value == w.session && w.alive {
      match way
      case Unable =>
      case OnDevice(throws) => StartingKeeps(w, s, throws);
      case ByService(how) => ListeningKeeps(w0, w, s, how);
    }
  }

  lemma AskGrantedKeeps(w0: State, k: nat, throws: bool)
    requires Inv(w0) && k < |w0.owed.asks| && w0.owed.asks[k].Some?
    ensures Inv(AskGranted(w0, k, throws))
  {
    NewStream(w0);
    var s := w0.mics.given;
    var w := w0.(mics := Received(w0.mics), owed := w0.owed.(asks := w0.owed.asks[k := None]));
    var h := HideMic(StopTracks(w.mics, s), s);
    if !w.handingOver || w0.owed.asks[k].value != w.session || !w.alive {
      LikeKeeps(w0.(mics := h), w.(mics := h));
    } else {
      var v := w.(handingOver := false);
      LikeKeeps(w0.(mics := StopTracks(w.mics, s)), v.(mics := StopTracks(w.mics, s)));
      StartingKeeps(v, s, throws);
    }
  }

  lemma TakenOverKeeps(w0: State, w: State, throws: bool)
    requires Inv(w0) && Like(w0, w) && w.transcribing == w0.transcribing && w.finishing == w0.finishing && w.alive
    requires TakeLevel(w.mics).1.Some?
    ensures var (m, s) := TakeLevel(w.mics);
      Inv(StartWhisper(w.(mics := m, handingOver := false), s.value, w.session, throws))
  {
    TakingKeeps(w.mics);
    var (m, s) := TakeLevel(w.mics);
    RecordingKeeps(m, s.value, throws);
    HandsKeep(w0, StartWhisper(w.(mics := m, handingOver := false), s.value, w.session, throws));
  }

  lemma SwitchingKeeps(w0: State, w: State, able: bool, throws: bool)
    requires Inv(w0) && Like(w0, w) && w.transcribing == w0.transcribing && w.finishing == w0.finishing
    ensures Inv(SwitchToWhisper(w, able, throws))
  {
    var (m, s) := TakeLevel(w.mics);
    if !able {
      IdlingKeeps(w0, w.(handingOver := false));
    } else if w.mics.level.None? {
      LikeKeeps(w0, SwitchToWhisper(w, able, throws));
    } else if s.None? {
      TakingKeeps(w.mics);
      HandsKeep(w0, SwitchToWhisper(w, able, throws));
    } else {
      TakenOverKeeps(w0, w, throws);
    }
  }

  lemma ErrorKeeps(w: State, r: nat, fault: Fault, able: bool, throws: bool)
    requires Inv(w)
    ensures Inv(RecError(w, r, fault, able, throws))
  {
    match fault
    case Passing =>
    case Network =>
      var rec := if w.rec == Some(r) then None else w.rec;
      SwitchingKeeps(w, w.(wanted := false, handingOver := true, rec := rec), able, throws);
    case Serious => IdlingKeeps(w, w.(wanted := false));
  }

  lemma EndKeeps(w0: State, r: nat, tired: bool, how: Begun)
    requires Inv(w0)
    ensures Inv(RecEnd(w0, r, tired, how))
  {
    var w := w0.(owed := w0.owed.(ended := w0.owed.ended + {r}));
    if w.handingOver || w.engine == Whisper { LikeKeeps(w0, w); }
    else if w.stopped.Some? && w.stopped.value < |w.owed.stops| {
      FinishKeeps(w0, w.(stopped := None), w.stopped.value);
    }
    else if !w.wanted { IdlingKeeps(w0, w); }
    else if tired { IdlingKeeps(w0, w.(wanted := false)); }
    else if how == Begins { LikeKeeps(w0, Recognise(w, how)); }
    else { IdlingKeeps(w0, Recognise(w, how).(wanted := false)); }
  }

  lemma RecordedKeeps(w: State, k: nat)
    requires Inv(w) && k < |w.mics.closings| && w.mics.closings[k].stage == Stopping
    ensures Inv(RecorderDone(w, k))
  {
    ClosedKeeps(w.mics, k, w.transcribing + 1);
  }

  lemma WrittenKeeps(w: State, k: nat, words: bool)
    requires Inv(w) && k < |w.mics.closings| && w.mics.closings[k].stage.Writing?
    ensures Inv(WrittenOut(w, k, words))
  {
    WritingOutKeeps(w.mics, k);
  }

  lemma UnmountKeeps(w: State)
    requires Inv(w)
    ensures Inv(Unmount(w))
  {
    DroppingKeeps(w.mics, None);
    ReleasingKeeps(DropRecording(w.mics), None);
    var d, v := ReleaseLevel(DropRecording(w.mics)), Unmount(w).mics;
    forall k | 0 <= k < |v.closings| ensures Apart(v, v.closings[k], None) { assert Apart(d, d.closings[k], None); }
  }

  lemma QuietKeeps(w: State, s: Stream)
    requires Inv(w)
    ensures Inv(w.(mics := w.mics.(quiet := w.mics.quiet + {s})))
  {
    var v := w.mics.(quiet := w.mics.quiet + {s});
    forall k | 0 <= k < |v.closings|
      ensures Apart(v, v.closings[k], None)
    {
      assert Apart(w.mics, w.mics.closings[k], None);
    }
  }

  lemma ControlKeeps(w: State, e: Event)
    requires Inv(w) && Enabled(w, e) && ByPerson(e)
    ensures Inv(Apply(w, e))
  {
    match e
    case Presses(throws) => if w.listening { StopKeeps(w, w, throws); } else { LikeKeeps(w, Toggle(w, throws)); }
    case Stops(throws) => StopKeeps(w, w, throws);
    case Cancels(throws) => CancelKeeps(w, throws);
    case TwoMinutes(throws) => StopKeeps(w, w, throws);
    case Unmounts => UnmountKeeps(w);
  }

  lemma MicrophoneKeeps(w: State, e: Event)
    requires Inv(w) && Enabled(w, e) && ByMicrophone(e)
    ensures Inv(Apply(w, e))
  {
    match e
    case StartGiven(way) => StartGrantedKeeps(w, way);
    case StartRefused => LikeKeeps(w, w.(owed := w.owed.(starting := None)));
    case AskGiven(k, throws) => AskGrantedKeeps(w, k, throws);
    case AskDenied(k) => LikeKeeps(w, AskRefused(w, k));
    case Diagnosed => IdlingKeeps(w, w.(owed := w.owed.(diagnosing := w.owed.diagnosing - 1)));
    case GoesQuiet(s) => QuietKeeps(w, s);
  }

  lemma EngineKeeps(w: State, e: Event)
    requires Inv(w) && Enabled(w, e) && !ByPerson(e) && !ByMicrophone(e)
    ensures Inv(Apply(w, e))
  {
    match e
    case Errs(r, fault, able, throws) => ErrorKeeps(w, r, fault, able, throws);
    case Ends(r, tired, how) => EndKeeps(w, r, tired, how);
    case WaitIsOver(k) => FinishKeeps(w, w, k);
    case Recorded(k) => RecordedKeeps(w, k);
    case Wrote(k, words) => WrittenKeeps(w, k, words);
  }

  lemma StepKeeps(w: State, e: Event)
    requires Inv(w) && Enabled(w, e)
    ensures Inv(Apply(w, e))
  {
    if ByPerson(e) {
      ControlKeeps(w, e);
    } else if ByMicrophone(e) {
      MicrophoneKeeps(w, e);
    } else {
      EngineKeeps(w, e);
    }
  }

  lemma {:induction false} InvAlways(es: seq<Event>)
    requires Possible(MOUNTED, es)
    ensures Inv(After(MOUNTED, es))
    decreases |es|
  {
    if es != [] {
      InvAlways(es[..|es| - 1]);
      StepKeeps(After(MOUNTED, es[..|es| - 1]), es[|es| - 1]);
    }
  }

  // ---- one holder each -------------------------------------------------------------------------------------------

  function Finishing(cs: seq<Closing>, s: Stream): set<nat> {
    set k | 0 <= k < |cs| && cs[k] == Closing(s, Stopping)
  }

  /** How many hold stream `s`; a lost one is held by nobody, and counted once. */
  function Holders(m: Mics, s: Stream): nat {
    (if m.level == Some(s) then 1 else 0) + (if m.media == Some(s) then 1 else 0) + |Finishing(m.closings, s)|
    + (if s in m.orphans then 1 else 0)
  }

  lemma FinishingOnce(cs: seq<Closing>, s: Stream)
    requires forall i, j | 0 <= i < j < |cs| :: cs[i].stream != cs[j].stream
    ensures |Finishing(cs, s)| == if Finishes(cs, s) then 1 else 0
  {
    if Finishes(cs, s) {
      var k :| 0 <= k < |cs| && cs[k] == Closing(s, Stopping);
      assert Finishing(cs, s) == {k};
    } else {
      assert Finishing(cs, s) == {};
    }
  }

  /**
   * In every order of events, a stream that was given and not stopped has exactly one holder, and a stopped one has
   * none.
   */
  lemma OneHolderEach(es: seq<Event>, s: Stream)
    requires Possible(MOUNTED, es)
    ensures Holders(After(MOUNTED, es).mics, s) == if s in After(MOUNTED, es).mics.open then 1 else 0
  {
    InvAlways(es);
    var m := After(MOUNTED, es).mics;
    FinishingOnce(m.closings, s);
    assert s in m.open <==> HasHolder(m, None, s);
    if Finishes(m.closings, s) {
      var k :| 0 <= k < |m.closings| && m.closings[k] == Closing(s, Stopping);
      assert Apart(m, m.closings[k], None);
    }
  }

  predicate TakesOver(w: State, k: nat) {
    k < |w.owed.asks| && w.owed.asks[k] == Some(w.session) && w.handingOver && w.alive
  }

  /** A recorder throws that is made for a stream not overtaken: a press's, an answered ask's, or the waveform's own. */
  predicate Loses(w: State, e: Event) {
    match e
    case StartGiven(way) => way == OnDevice(true) && w.owed.starting == Some(w.session) && w.alive
    case AskGiven(k, throws) => throws && TakesOver(w, k)
    case Errs(_, fault, able, throws) =>
      fault == Network && able && throws && w.alive && w.mics.level.Some? && w.mics.level.value !in w.mics.quiet
    case _ => false
  }

  lemma StoppingLosesNothing(w: State, throws: bool)
    ensures Stop(w, throws).mics.orphans == w.mics.orphans
  {
    StopIs(w, throws);
  }

  lemma ControlLosesNothing(w: State, e: Event)
    requires Enabled(w, e) && ByPerson(e)
    ensures Apply(w, e).mics.orphans == w.mics.orphans
  {
    match e
    case Presses(throws) => if w.listening { StoppingLosesNothing(w, throws); }
    case Stops(throws) => StoppingLosesNothing(w, throws);
    case TwoMinutes(throws) => StoppingLosesNothing(w, throws);
    case Cancels(throws) =>
      CancelIs(w, throws);
      StoppingLosesNothing(w.(session := w.session + 1), throws);
    case Unmounts =>
  }

  /** The stream a recorder could throw for is nobody's, so not lost yet. */
  lemma NotLostYet(m: Mics)
    requires Held(m, None)
    ensures m.given !in m.orphans && (m.level.Some? ==> m.level.value !in m.orphans)
  {
    assert m.given !in m.open;
    assert !HasHolder(m, None, m.given);
  }

  /** Nothing lost, or exactly the one stream in hand when its recorder throws. */
  predicate LosesOne(m: Mics, n: Mics, lost: bool) {
    m.orphans <= n.orphans && |n.orphans| == |m.orphans| + if lost then 1 else 0
  }

  lemma StartingLoses(w: State, s: Stream, token: nat, throws: bool)
    requires s !in w.mics.orphans
    ensures LosesOne(w.mics, StartWhisper(w, s, token, throws).mics, token == w.session && w.alive && throws)
  {
  }

  lemma SwitchingLoses(w: State, able: bool, throws: bool)
    requires w.mics.level.Some? ==> w.mics.level.value !in w.mics.orphans
    ensures var lost := able && throws && w.alive && w.mics.level.Some? && w.mics.level.value !in w.mics.quiet;
      LosesOne(w.mics, SwitchToWhisper(w, able, throws).mics, lost)
  {
    var (m, s) := TakeLevel(w.mics);
    if able && s.Some? && w.alive { StartingLoses(w.(mics := m, handingOver := false), s.value, w.session, throws); }
  }

  lemma StartGrantedLoses(w0: State, way: Way)
    requires w0.mics.given !in w0.mics.orphans && w0.owed.starting.Some?
    ensures LosesOne(w0.mics, StartGranted(w0, way).mics, Loses(w0, StartGiven(way)))
  {
    var w := w0.(mics := Received(w0.mics), owed := w0.owed.(starting := None));
    if way.OnDevice? { StartingLoses(w, w0.mics.given, w0.owed.starting.value, way.throws); }
  }

  lemma AskGrantedLoses(w0: State, k: nat, throws: bool)
    requires w0.mics.given !in w0.mics.orphans && k < |w0.owed.asks| && w0.owed.asks[k].Some?
    ensures LosesOne(w0.mics, AskGranted(w0, k, throws).mics, Loses(w0, AskGiven(k, throws)))
  {
    var w := w0.(mics := Received(w0.mics), owed := w0.owed.(asks := w0.owed.asks[k := None]));
    StartingLoses(w.(handingOver := false), w0.mics.given, w0.owed.asks[k].value, throws);
  }

  lemma MicrophoneLoses(w: State, e: Event)
    requires w.mics.given !in w.mics.orphans && Enabled(w, e) && ByMicrophone(e)
    ensures LosesOne(w.mics, Apply(w, e).mics, Loses(w, e))
  {
    match e
    case StartGiven(way) => StartGrantedLoses(w, way);
    case AskGiven(k, throws) => AskGrantedLoses(w, k, throws);
    case _ =>
  }

  lemma EngineLoses(w: State, e: Event)
    requires Enabled(w, e) && !ByPerson(e) && !ByMicrophone(e)
    requires w.mics.level.Some? ==> w.mics.level.value !in w.mics.orphans
    ensures LosesOne(w.mics, Apply(w, e).mics, Loses(w, e))
  {
    if e.Errs? && e.fault == Network {
      var v := w.(wanted := false, handingOver := true, rec := if w.rec == Some(e.r) then None else w.rec);
      SwitchingLoses(v, e.able, e.throws);
    }
  }

  /** Exactly these events lose a stream, one each; no event finds one again. */
  lemma LosesIff(w: State, e: Event)
    requires Inv(w) && Enabled(w, e)
    ensures w.mics.orphans <= Apply(w, e).mics.orphans
    ensures |Apply(w, e).mics.orphans| == |w.mics.orphans| + if Loses(w, e) then 1 else 0
  {
    NotLostYet(w.mics);
    if ByPerson(e) {
      ControlLosesNothing(w, e);
    } else if ByMicrophone(e) {
      MicrophoneLoses(w, e);
    } else {
      EngineLoses(w, e);
    }
  }

  /** How many events of a run lost a stream. */
  function Losses(es: seq<Event>): nat
    requires Possible(MOUNTED, es)
    decreases |es|
  {
    if es == [] then 0
    else Losses(es[..|es| - 1]) + if Loses(After(MOUNTED, es[..|es| - 1]), es[|es| - 1]) then 1 else 0
  }

  /**
   * In every run as many streams are lost as events lost one: none exactly when no recorder threw for a stream that was
   * not overtaken, and then what is on show is open.
   */
  lemma {:induction false} NothingIsLostIff(es: seq<Event>)
    requires Possible(MOUNTED, es)
    ensures |After(MOUNTED, es).mics.orphans| == Losses(es)
    ensures After(MOUNTED, es).mics.orphans == {} <==> Losses(es) == 0
    ensures var m := After(MOUNTED, es).mics; Losses(es) == 0 && m.shown.Some? ==> m.shown.value in m.open
    decreases |es|
  {
    InvAlways(es);
    if es != [] {
      NothingIsLostIff(es[..|es| - 1]);
      InvAlways(es[..|es| - 1]);
      LosesIff(After(MOUNTED, es[..|es| - 1]), es[|es| - 1]);
    }
  }

  /**
   * Once the page has gone, and what was being recorded then has been finished, no microphone is open that is not lost.
   */
  lemma GoneHoldsNothing(es: seq<Event>)
    requires Possible(MOUNTED, es) && !After(MOUNTED, es).alive
    requires forall c | c in After(MOUNTED, es).mics.closings :: c.stage != Stopping
    ensures After(MOUNTED, es).mics.open == After(MOUNTED, es).mics.orphans
  {
    InvAlways(es);
    var m := After(MOUNTED, es).mics;
    forall s: Stream ensures s in m.open <==> s in m.orphans { assert s in m.open <==> HasHolder(m, None, s); }
  }

  // ---- runs by their first event ---------------------------------------------------------------------------------

  lemma {:induction false} Prepend(w: State, e: Event, es: seq<Event>)
    requires Enabled(w, e) && Possible(Apply(w, e), es)
    ensures Possible(w, [e] + es) && After(w, [e] + es) == After(Apply(w, e), es)
    decreases |es|
  {
    var all := [e] + es;
    if es == [] {
      assert all == [e] && all[..0] == [] && all[|all| - 1] == e;
      assert Possible(w, all[..0]) && After(w, all[..0]) == w;
    } else {
      var front, last := es[..|es| - 1], es[|es| - 1];
      Prepend(w, e, front);
      assert all[..|all| - 1] == [e] + front && all[|all| - 1] == last;
      assert After(Apply(w, e), es) == Apply(After(Apply(w, e), front), last);
    }
  }

  // ---- no microphone behind a button that says off ---------------------------------------------------------------

  /** While the waveform's or a recording's microphone is open, the button says so or the hand-over is under way. */
  predicate Attended(w: State) {
    w.mics.media.Some? || w.mics.level.Some? ==> w.listening || w.handingOver
  }

  predicate StopUnattends(w: State) { w.handingOver && w.mics.media.Some? }

  predicate EndIdles(w: State, tired: bool, how: Begun) {
    && !w.handingOver && w.engine == Service
    && if w.stopped.Some? && w.stopped.value < |w.owed.stops| then !w.owed.stops[w.stopped.value].done
       else !w.wanted || tired || how != Begins
  }

  /** Something older than what is being recorded now turns the button off. */
  predicate Unattends(w: State, e: Event) {
    match e
    case Presses(_) => w.listening && StopUnattends(w)
    case Stops(_) => StopUnattends(w)
    case TwoMinutes(_) => StopUnattends(w)
    case AskGiven(k, throws) => TakesOver(w, k) && throws && w.mics.level.Some? && !w.listening
    case AskDenied(k) =>
      k < |w.owed.asks| && w.owed.asks[k] == Some(w.session) && w.handingOver
      && (w.mics.media.Some? || w.mics.level.Some?) && !w.listening
    case Diagnosed => w.mics.media.Some? && !w.handingOver
    case Errs(_, fault, able, _) =>
      w.mics.media.Some? && ((fault == Serious && !w.handingOver) || (fault == Network && !able))
    case Ends(_, tired, how) => w.mics.media.Some? && EndIdles(w, tired, how)
    case WaitIsOver(k) => k < |w.owed.stops| && !w.owed.stops[k].done && w.mics.media.Some? && !w.handingOver
    case Recorded(_) => (w.mics.media.Some? || w.mics.level.Some?) && !w.handingOver
    case _ => false
  }

  lemma StopAttends(w: State, throws: bool)
    requires Attended(w)
    ensures Attended(Stop(w, throws)) <==> !StopUnattends(w)
  {
    StopIs(w, throws);
  }

  lemma ControlAttends(w: State, e: Event)
    requires Attended(w) && Enabled(w, e) && ByPerson(e)
    ensures Attended(Apply(w, e)) <==> !Unattends(w, e)
  {
    match e
    case Presses(throws) => if w.listening { StopAttends(w, throws); }
    case Stops(throws) => StopAttends(w, throws);
    case TwoMinutes(throws) => StopAttends(w, throws);
    case Cancels(throws) =>
      CancelIs(w, throws);
      StopAttends(w.(session := w.session + 1), throws);
    case Unmounts =>
  }

  lemma MicrophoneAttends(w: State, e: Event)
    requires Attended(w) && Enabled(w, e) && ByMicrophone(e)
    ensures Attended(Apply(w, e)) <==> !Unattends(w, e)
  {
  }

  lemma ErrorAttends(w: State, e: Event)
    requires Inv(w) && Attended(w) && Enabled(w, e) && e.Errs?
    ensures Attended(Apply(w, e)) <==> !Unattends(w, e)
  {
  }

  lemma EngineAttends(w: State, e: Event)
    requires Inv(w) && Attended(w) && Enabled(w, e) && !ByPerson(e) && !ByMicrophone(e)
    ensures Attended(Apply(w, e)) <==> !Unattends(w, e)
  {
    if e.Errs? { ErrorAttends(w, e); }
  }

  /** Exactly these events leave a microphone open behind a button that says off. */
  lemma AttendedIff(w: State, e: Event)
    requires Inv(w) && Attended(w) && Enabled(w, e)
    ensures Attended(Apply(w, e)) <==> !Unattends(w, e)
  {
    if ByPerson(e) {
      ControlAttends(w, e);
    } else if ByMicrophone(e) {
      MicrophoneAttends(w, e);
    } else {
      EngineAttends(w, e);
    }
  }

  predicate NoneUnattends(es: seq<Event>)
    requires Possible(MOUNTED, es)
    decreases |es|
  {
    es == [] || (NoneUnattends(es[..|es| - 1]) && !Unattends(After(MOUNTED, es[..|es| - 1]), es[|es| - 1]))
  }

  lemma {:induction false} PrefixesArePossible(w: State, es: seq<Event>, n: nat)
    requires Possible(w, es) && n <= |es|
    ensures Possible(w, es[..n])
    decreases |es|
  {
    if n < |es| {
      PrefixesArePossible(w, es[..|es| - 1], n);
      assert es[..|es| - 1][..n] == es[..n];
    } else {
      assert es[..n] == es;
    }
  }

  ghost predicate AttendedThroughout(es: seq<Event>) {
    forall n | 0 <= n <= |es| && Possible(MOUNTED, es[..n]) :: Attended(After(MOUNTED, es[..n]))
  }

  lemma ThroughoutOneMore(es: seq<Event>)
    requires es != [] && Possible(MOUNTED, es)
    ensures AttendedThroughout(es) <==> AttendedThroughout(es[..|es| - 1]) && Attended(After(MOUNTED, es))
  {
    var n := |es|;
    var front := es[..n - 1];
    assert es[..n] == es && forall i | 0 <= i < n :: front[..i] == es[..i];
    if AttendedThroughout(es) {
      assert Attended(After(MOUNTED, es[..n]));
      assert forall i | 0 <= i < n && Possible(MOUNTED, front[..i]) :: Attended(After(MOUNTED, es[..i]));
    }
    if AttendedThroughout(front) && Attended(After(MOUNTED, es)) {
      forall i | 0 <= i <= n && Possible(MOUNTED, es[..i])
        ensures Attended(After(MOUNTED, es[..i]))
      {
        if i < n { assert Attended(After(MOUNTED, front[..i])); }
      }
    }
  }

  lemma {:induction false} AttendedThroughoutIff(es: seq<Event>)
    requires Possible(MOUNTED, es)
    ensures AttendedThroughout(es) <==> NoneUnattends(es)
    decreases |es|
  {
    if es == [] {
      assert es[..0] == es;
    } else {
      var front := es[..|es| - 1];
      AttendedThroughoutIff(front);
      ThroughoutOneMore(es);
      InvAlways(front);
      if AttendedThroughout(front) {
        assert front[..|front|] == front;
        AttendedIff(After(MOUNTED, front), es[|es| - 1]);
      }
    }
  }

  /**
   * At every moment of the run, a button that says off leaves nothing open but recordings being finished and what is
   * lost.
   */
  ghost predicate NeverBehindOff(es: seq<Event>) {
    forall n | 0 <= n <= |es| && Possible(MOUNTED, es[..n]) :: ClosedWhenOff(After(MOUNTED, es[..n]))
  }

  ghost predicate ClosedWhenOff(w: State) {
    !w.listening && !w.handingOver ==>
      forall s | s in w.mics.open :: Finishes(w.mics.closings, s) || s in w.mics.orphans
  }

  lemma ClosedIsAttended(w: State)
    requires Inv(w)
    ensures ClosedWhenOff(w) <==> Attended(w)
  {
    var m := w.mics;
    assert forall s | s in m.open :: HasHolder(m, None, s);
    if m.level.Some? { assert HasHolder(m, None, m.level.value); HeldByNoClosing(m, m.level.value); }
    if m.media.Some? { assert HasHolder(m, None, m.media.value); HeldByNoClosing(m, m.media.value); }
  }

  lemma HeldByNoClosing(m: Mics, s: Stream)
    requires Held(m, None) && (m.level == Some(s) || m.media == Some(s))
    ensures !Finishes(m.closings, s)
  {
    assert forall k | 0 <= k < |m.closings| :: Apart(m, m.closings[k], None);
  }

  /**
   * A run of presses, answers and failures never leaves one open behind an off button exactly when it has none of them.
   */
  lemma NeverOpenBehindOffIff(es: seq<Event>)
    requires Possible(MOUNTED, es)
    ensures NeverBehindOff(es) <==> NoneUnattends(es)
    ensures forall n | 0 <= n <= |es| :: Possible(MOUNTED, es[..n])
  {
    AttendedThroughoutIff(es);
    forall n | 0 <= n <= |es| ensures Possible(MOUNTED, es[..n]) { PrefixesArePossible(MOUNTED, es, n); }
    forall n | 0 <= n <= |es| && Possible(MOUNTED, es[..n])
      ensures ClosedWhenOff(After(MOUNTED, es[..n])) <==> Attended(After(MOUNTED, es[..n]))
    {
      InvAlways(es[..n]);
      ClosedIsAttended(After(MOUNTED, es[..n]));
    }
  }

  /** Listening by the browser's service, with its one recogniser, and its microphone kept for the waveform. */
  const BY_SERVICE := MOUNTED.(
    session := 1, rec := Some(0), wanted := true, listening := true, phase := Hearing,
    mics := Mics(Some(0), None, Some(0), [], 1, {0}, {}, {}), owed := MOUNTED.owed.(recs := 1))

  lemma ComesToListen()
    ensures Enabled(Apply(MOUNTED, Presses(false)), StartGiven(ByService(Begins)))
    ensures Apply(Apply(MOUNTED, Presses(false)), StartGiven(ByService(Begins))) == BY_SERVICE
  {
    assert {} + {0} == {0};
  }

  /**
   * Stop, then the service's network error before its last words: Whisper records on, and the wait's end says it is
   * off.
   */
  lemma RecordsOn()
    ensures var es := [Stops(false), Errs(0, Network, true, false), WaitIsOver(0)];
      Possible(BY_SERVICE, es)
      && var w := After(BY_SERVICE, es); w.mics.media == Some(0) && w.mics.open == {0} && !w.listening && !w.handingOver
  {
    var c := Apply(BY_SERVICE, Stops(false));
    assert c.owed.stops == [Pending(0, false)] && c.mics == BY_SERVICE.mics && c.owed.recs == 1;
    var d := Apply(c, Errs(0, Network, true, false));
    assert d.mics.media == Some(0) && d.owed.stops == [Pending(0, false)];
    var es: seq<Event> := [];
    Prepend(d, WaitIsOver(0), es);
    Prepend(c, Errs(0, Network, true, false), [WaitIsOver(0)] + es);
    Prepend(BY_SERVICE, Stops(false), [Errs(0, Network, true, false)] + ([WaitIsOver(0)] + es));
    assert [Stops(false), Errs(0, Network, true, false), WaitIsOver(0)]
        == [Stops(false)] + ([Errs(0, Network, true, false)] + ([WaitIsOver(0)] + es));
  }

  /** The same from the first press: the microphone is open behind a button that says off. */
  lemma RecordsAfterStop()
    ensures var es := [Presses(false), StartGiven(ByService(Begins)), Stops(false), Errs(0, Network, true, false),
      WaitIsOver(0)];
      Possible(MOUNTED, es)
      && var w := After(MOUNTED, es); w.mics.media == Some(0) && w.mics.open == {0} && !w.listening && !w.handingOver
  {
    var es := [Stops(false), Errs(0, Network, true, false), WaitIsOver(0)];
    ComesToListen();
    RecordsOn();
    Prepend(Apply(MOUNTED, Presses(false)), StartGiven(ByService(Begins)), es);
    Prepend(MOUNTED, Presses(false), [StartGiven(ByService(Begins))] + es);
    assert [Presses(false), StartGiven(ByService(Begins)), Stops(false), Errs(0, Network, true, false), WaitIsOver(0)]
        == [Presses(false)] + ([StartGiven(ByService(Begins))] + es);
  }

  /** A recorder that throws leaves its microphone open for good: nothing refers to it, also when the page has gone. */
  lemma ThrownIsNeverStopped()
    ensures var es := [Presses(false), StartGiven(OnDevice(true)), Unmounts];
      Possible(MOUNTED, es) && After(MOUNTED, es).mics.open == {0}
  {
    var a := Apply(MOUNTED, Presses(false));
    var b := Apply(a, StartGiven(OnDevice(true)));
    var es: seq<Event> := [];
    Prepend(b, Unmounts, es);
    Prepend(a, StartGiven(OnDevice(true)), [Unmounts] + es);
    Prepend(MOUNTED, Presses(false), [StartGiven(OnDevice(true))] + ([Unmounts] + es));
    assert [Presses(false), StartGiven(OnDevice(true)), Unmounts]
        == [Presses(false)] + ([StartGiven(OnDevice(true))] + ([Unmounts] + es));
  }
}
