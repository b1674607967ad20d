/**
 * Dictation in the browser: who holds each microphone stream. The browser's speech service, this computer's own
 * Whisper, the hand-over between them and the controls all answer later, into whatever the person has started since.
 */
module Dictation {
  import opened Options

  type Stream = nat

  datatype Engine = Service | Whisper

  datatype Phase = Idle | Hearing | Transcribing

  /** A recording that was stopped: its recorder not yet done, its speech being written out, or over. */
  datatype Stage = Stopping | Writing(mine: nat) | Over

  datatype Closing = Closing(stream: Stream, stage: Stage)

  /** A wait for recogniser `r`'s last words after Stop. */
  datatype Pending = Pending(r: nat, done: bool)

  /**
   * The microphones: the waveform's, the recording's, the one on show and the recordings being finished; then how many
   * were ever given, those not stopped, those gone quiet by themselves, and those nothing refers to any more.
   */
  datatype Mics = Mics(
    level: Option<Stream>, media: Option<Stream>, shown: Option<Stream>, closings: seq<Closing>,
    given: nat, open: set<Stream>, quiet: set<Stream>, orphans: set<Stream>)

  /**
   * What is under way: a press or hand-overs waiting for the microphone, refusals being looked into, stops being waited
   * for; then which recordings reached the box, how many recognisers were made and which of them have ended.
   */
  datatype Owed = Owed(
    starting: Option<nat>, asks: seq<Option<nat>>, diagnosing: nat, stops: seq<Pending>,
    written: set<nat>, recs: nat, ended: set<nat>)

  datatype State = State(
    session: nat, transcribing: nat, alive: bool, handingOver: bool, wanted: bool, engine: Engine,
    rec: Option<nat>, stopped: Option<nat>, finishing: Option<nat>, listening: bool, phase: Phase,
    mics: Mics, owed: Owed)

  const MOUNTED := State(
    0, 0, true, false, false, Service, None, None, None, false, Idle, Mics(None, None, None, [], 0, {}, {}, {}),
    Owed(None, [], 0, [], {}, 0, {}))

  // ---- streams ---------------------------------------------------------------------------------------------------

  function StopTracks(m: Mics, s: Stream): Mics { m.(open := m.open - {s}) }

  function ShowMic(m: Mics, s: Stream): Mics { m.(shown := Some(s)) }

  /** `shown` is cleared if it is `s`, and left alone otherwise. */
  function HideMic(m: Mics, s: Stream): Mics {
    if m.shown == Some(s) then m.(shown := None) else m
  }

  function ReleaseLevel(m: Mics): (r: Mics)
    ensures r.level == None && r.media == m.media && r.closings == m.closings && r.orphans == m.orphans
  {
    if m.level.None? then m else HideMic(StopTracks(m.(level := None), m.level.value), m.level.value)
  }

  /** `level` given up, and returned if it is still sounding: the caller becomes its holder. */
  function TakeLevel(m: Mics): (r: (Mics, Option<Stream>))
    ensures r.0.level == None && r.0.media == m.media && r.0.closings == m.closings && r.0.orphans == m.orphans
  {
    if m.level.None? then (m, None)
    else if m.level.value !in m.quiet then (m.(level := None), m.level)
    else (ReleaseLevel(m), None)
  }

  function DropRecording(m: Mics): (r: Mics)
    ensures r.level == m.level && r.media == None && r.closings == m.closings && r.orphans == m.orphans
  {
    if m.media.None? then m else StopTracks(m.(media := None), m.media.value)
  }

  /** `s`, in nobody's hand yet, becomes `media` in place of the last, or an orphan when its recorder `throws`. */
  function Record(m: Mics, s: Stream, throws: bool): Mics {
    var d := DropRecording(m);
    if throws then d.(orphans := d.orphans + {s}) else ShowMic(d.(media := Some(s)), s)
  }

  function ShowLevel(m: Mics, s: Stream): Mics { ShowMic(ReleaseLevel(m).(level := Some(s)), s) }

  function Received(m: Mics): Mics { m.(given := m.given + 1, open := m.open + {m.given}) }

  /** The recording is to be finished. */
  function Close(m: Mics): Mics
    requires m.media.Some?
  {
    m.(media := None, closings := m.closings + [Closing(m.media.value, Stopping)])
  }

  /** Closing `k` from Stopping to Writing, as number `mine`; its stream is stopped. */
  function Closed(m: Mics, k: nat, mine: nat): Mics
    requires k < |m.closings|
  {
    var s := m.closings[k].stream;
    HideMic(StopTracks(m, s), s).(closings := m.closings[k := Closing(s, Writing(mine))])
  }

  function GoIdle(w: State): State { w.(mics := ReleaseLevel(w.mics), listening := false, phase := Idle) }

  // ---- Whisper ---------------------------------------------------------------------------------------------------

  function StartWhisper(w: State, s: Stream, token: nat, throws: bool): State {
    if token != w.session || !w.alive then w.(mics := StopTracks(w.mics, s))
    else if throws then w.(mics := Record(w.mics, s, true))
    else w.(mics := Record(w.mics, s, false), engine := Whisper, listening := true, phase := Hearing)
  }

  /** How the browser's service comes to listen: it does, there is none to be made, or it will not start. */
  datatype Begun = Begins | NoRecogniser | NotStarted

  function Recognise(w: State, how: Begun): State {
    if how == NoRecogniser then w else w.(rec := Some(w.owed.recs), owed := w.owed.(recs := w.owed.recs + 1))
  }

  function SwitchToWhisper(w: State, able: bool, throws: bool): State {
    if !able then GoIdle(w.(handingOver := false))
    else
      var (m, s) := TakeLevel(w.mics);
      if s.None? then w.(mics := m, owed := w.owed.(asks := w.owed.asks + [Some(w.session)]))
      else if !w.alive then w.(mics := HideMic(StopTracks(m, s.value), s.value))
      else StartWhisper(w.(mics := m, handingOver := false), s.value, w.session, throws)
  }

  // ---- controls --------------------------------------------------------------------------------------------------

  function Finish(w: State, k: nat): State
    requires k < |w.owed.stops|
  {
    if w.owed.stops[k].done then w
    else GoIdle(w.(owed := w.owed.(stops := w.owed.stops[k := w.owed.stops[k].(done := true)]), stopped := None,
                   rec := if w.rec == Some(w.owed.stops[k].r) then None else w.rec))
  }

  /** The browser's service is asked to stop, and its last words waited for; `throws`: it would not be stopped. */
  function StopRecogniser(w: State, throws: bool): State {
    if w.rec.None? then GoIdle(w.(wanted := false))
    else
      var k := |w.owed.stops|;
      var v := w.(wanted := false, stopped := Some(k),
                  owed := w.owed.(stops := w.owed.stops + [Pending(w.rec.value, false)]));
      if throws then Finish(v, k) else v
  }

  function FinishRecording(w: State): State
    requires w.mics.media.Some?
  {
    w.(mics := Close(w.mics), finishing := Some(|w.mics.closings|))
  }

  function Stop(w0: State, throws: bool): State {
    var w := w0.(session := w0.session + 1);
    if w.handingOver then GoIdle(w.(handingOver := false))
    else if w.finishing.Some? then w
    else if w.mics.media.Some? then FinishRecording(w)
    else StopRecogniser(w, throws)
  }

  function Discard(w: State): State
    requires w.mics.media.Some?
  {
    w.(mics := HideMic(DropRecording(w.mics), w.mics.media.value))
  }

  function Abandon(w: State): State {
    w.(transcribing := w.transcribing + 1, finishing := None, phase := Idle)
  }

  function Cancelled(w: State, throws: bool): State {
    if w.mics.media.Some? then GoIdle(Discard(w))
    else if w.finishing.Some? then Abandon(w)
    else Stop(w, throws)
  }

  function Cancel(w: State, throws: bool): State { Cancelled(w.(session := w.session + 1), throws) }

  lemma StopIs(w0: State, throws: bool)
    ensures var w := w0.(session := w0.session + 1);
      Stop(w0, throws) == if w.handingOver then GoIdle(w.(handingOver := false)) else if w.finishing.Some? then w
        else if w.mics.media.Some? then FinishRecording(w) else StopRecogniser(w, throws)
  {
  }

  lemma CancelledIs(w: State, throws: bool)
    ensures Cancelled(w, throws) ==
      if w.mics.media.Some? then GoIdle(Discard(w)) else if w.finishing.Some? then Abandon(w) else Stop(w, throws)
  {
  }

  lemma CancelIs(w0: State, throws: bool)
    ensures var w := w0.(session := w0.session + 1);
      Cancel(w0, throws) ==
        if w.mics.media.Some? then GoIdle(Discard(w)) else if w.finishing.Some? then Abandon(w) else Stop(w, throws)
  {
    var w := w0.(session := w0.session + 1);
    CancelledIs(w, throws);
    assert Cancel(w0, throws) == Cancelled(w, throws);
  }

  function Toggle(w: State, throws: bool): State {
    if w.listening then Stop(w, throws)
    else if w.phase == Transcribing || w.owed.starting.Some? then w
    else w.(session := w.session + 1, owed := w.owed.(starting := Some(w.session + 1)))
  }

  /** Where a press leads once the microphone is given. */
  datatype Way = Unable | OnDevice(throws: bool) | ByService(how: Begun)

  /** The browser's service listens, or could not be started after all. */
  function Listen(w: State, how: Begun): State {
    if how == Begins then w.(listening := true, phase := Hearing) else w.(mics := ReleaseLevel(w.mics), wanted := false)
  }

  function StartGranted(w0: State, way: Way): State
    requires w0.owed.starting.Some?
  {
    var s, token := w0.mics.given, w0.owed.starting.value;
    var w := w0.(mics := Received(w0.mics), owed := w0.owed.(starting := None));
    if token != w.session || !w.alive then w.(mics := StopTracks(w.mics, s))
    else match way
      case Unable => w.(mics := StopTracks(w.mics, s))
      case OnDevice(throws) => StartWhisper(w, s, token, throws)
      case ByService(how) =>
        Listen(Recognise(w.(mics := ShowLevel(w.mics, s), engine := Service, wanted := true), how), how)
  }

  function AskGranted(w0: State, k: nat, throws: bool): State
    requires k < |w0.owed.asks| && w0.owed.asks[k].Some?
  {
    var s, token := w0.mics.given, w0.owed.asks[k].value;
    var w := w0.(mics := Received(w0.mics), owed := w0.owed.(asks := w0.owed.asks[k := None]));
    if !w.handingOver || token != w.session || !w.alive then w.(mics := HideMic(StopTracks(w.mics, s), s))
    else StartWhisper(w.(handingOver := false), s, token, throws)
  }

  function AskRefused(w: State, k: nat): State
    requires k < |w.owed.asks| && w.owed.asks[k].Some?
  {
    var v := w.(owed := w.owed.(asks := w.owed.asks[k := None]));
    if w.handingOver && w.owed.asks[k].value == w.session
    then v.(handingOver := false, owed := v.owed.(diagnosing := v.owed.diagnosing + 1))
    else v
  }

  datatype Fault = Passing | Network | Serious

  function RecError(w: State, r: nat, fault: Fault, able: bool, throws: bool): State {
    match fault
    case Passing => w
    case Network =>
      var rec := if w.rec == Some(r) then None else w.rec;
      SwitchToWhisper(w.(wanted := false, handingOver := true, rec := rec), able, throws)
    case Serious => GoIdle(w.(wanted := false))
  }

  function RecEnd(w0: State, r: nat, tired: bool, how: Begun): State {
    var w := w0.(owed := w0.owed.(ended := w0.owed.ended + {r}));
    if w.handingOver || w.engine == Whisper then w
    else if w.stopped.Some? && w.stopped.value < |w.owed.stops| then Finish(w.(stopped := None), w.stopped.value)
    else if !w.wanted then GoIdle(w)
    else if tired then GoIdle(w.(wanted := false))
    else if how == Begins then Recognise(w, how)
    else GoIdle(Recognise(w, how).(wanted := false))
  }

  /** Closing `k` gives its stream back and takes the next number to be written under. */
  function RecorderDone(w: State, k: nat): State
    requires k < |w.mics.closings|
  {
    w.(mics := Closed(w.mics, k, w.transcribing + 1), listening := false, phase := Transcribing,
       transcribing := w.transcribing + 1)
  }

  /** Closing `k` is over; its words are `written` only if its number is still the newest and the page is there. */
  function WrittenOut(w: State, k: nat, words: bool): State
    requires k < |w.mics.closings| && w.mics.closings[k].stage.Writing?
  {
    var c := w.mics.closings[k];
    var current := c.stage.mine == w.transcribing && w.alive;
    w.(mics := w.mics.(closings := w.mics.closings[k := c.(stage := Over)]),
       owed := if current && words then w.owed.(written := w.owed.written + {k}) else w.owed,
       phase := if current then Idle else w.phase,
       finishing := if w.finishing == Some(k) then None else w.finishing)
  }

  /** The counters move on, so that no answer still to come finds its own number. */
  function Detach(w: State): State {
    w.(alive := false, session := w.session + 1, transcribing := w.transcribing + 1, wanted := false,
       handingOver := false,
       rec := None, owed := if w.rec.Some? then w.owed.(ended := w.owed.ended + {w.rec.value}) else w.owed)
  }

  function Unmount(w: State): State { Detach(w).(mics := ReleaseLevel(DropRecording(w.mics)).(shown := None)) }

  datatype Event =
    | Presses(throws: bool)
    | Stops(throws: bool)
    | Cancels(throws: bool)
    | StartGiven(way: Way)
    | StartRefused
    | AskGiven(k: nat, throws: bool)
    | AskDenied(k: nat)
    | Diagnosed
    | Errs(r: nat, fault: Fault, able: bool, throws: bool)
    | Ends(r: nat, tired: bool, how: Begun)
    | WaitIsOver(k: nat)
    | Recorded(k: nat)
    | Wrote(k: nat, words: bool)
    | TwoMinutes(throws: bool)
    | GoesQuiet(s: Stream)
    | Unmounts

  predicate ByPerson(e: Event) { e.Presses? || e.Stops? || e.Cancels? || e.TwoMinutes? || e.Unmounts? }

  predicate ByMicrophone(e: Event) {
    e.StartGiven? || e.StartRefused? || e.AskGiven? || e.AskDenied? || e.Diagnosed? || e.GoesQuiet?
  }

  predicate Enabled(w: State, e: Event) {
    match e
    case StartGiven(_) => w.owed.starting.Some?
    case StartRefused => w.owed.starting.Some?
    case AskGiven(k, _) => k < |w.owed.asks| && w.owed.asks[k].Some?
    case AskDenied(k) => k < |w.owed.asks| && w.owed.asks[k].Some?
    case Diagnosed => w.owed.diagnosing > 0
    case Errs(r, _, _, _) => r < w.owed.recs && r !in w.owed.ended
    case Ends(r, _, _) => r < w.owed.recs && r !in w.owed.ended
    case WaitIsOver(k) => k < |w.owed.stops|
    case Recorded(k) => k < |w.mics.closings| && w.mics.closings[k].stage == Stopping
    case Wrote(k, _) => k < |w.mics.closings| && w.mics.closings[k].stage.Writing?
    case TwoMinutes(_) => w.mics.media.Some?
    case GoesQuiet(s) => s in w.mics.open
    case _ => true
  }

  function Apply(w: State, e: Event): State
    requires Enabled(w, e)
  {
    match e
    case Presses(throws) => Toggle(w, throws)
    case Stops(throws) => Stop(w, throws)
    case Cancels(throws) => Cancel(w, throws)
    case StartGiven(way) => StartGranted(w, way)
    case StartRefused => w.(owed := w.owed.(starting := None))
    case AskGiven(k, throws) => AskGranted(w, k, throws)
    case AskDenied(k) => AskRefused(w, k)
    case Diagnosed => GoIdle(w.(owed := w.owed.(diagnosing := w.owed.diagnosing - 1)))
    case Errs(r, fault, able, throws) => RecError(w, r, fault, able, throws)
    case Ends(r, tired, how) => RecEnd(w, r, tired, how)
    case WaitIsOver(k) => Finish(w, k)
    case Recorded(k) => RecorderDone(w, k)
    case Wrote(k, words) => WrittenOut(w, k, words)
    case TwoMinutes(throws) => Stop(w, throws)
    case GoesQuiet(s) => w.(mics := w.mics.(quiet := w.mics.quiet + {s}))
    case Unmounts => Unmount(w)
  }

  predicate Possible(w: State, es: seq<Event>)
    decreases |es|, 0
  {
    es == [] || (Possible(w, es[..|es| - 1]) && Enabled(After(w, es[..|es| - 1]), es[|es| - 1]))
  }

  function After(w: State, es: seq<Event>): State
    requires Possible(w, es)
    decreases |es|, 1
  {
    if es == [] then w else Apply(After(w, es[..|es| - 1]), es[|es| - 1])
  }
}
