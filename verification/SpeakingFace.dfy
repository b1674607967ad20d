/**
 * What the page shows of the voices: when her face talks, when Stop is offered, and that a hush in time silences her.
 */
module SpeakingFace {
  import opened Options
  import Player
  import opened Speaking

  // ---- what the notices still to be read will make of it ----------------------------------------------------------

  datatype Face = Face(talking: bool, waiting: bool, timer: bool)

  /** The computer voice's part of the face; the natural voice's own sound is not. */
  function FaceOf(p: Page): Face { Face(p.talking && !p.on, p.waiting, p.timer) }

  function Hears(f: Face, n: Notice): Face {
    match n
    case SpeakingNow => if f.talking then f else Face(true, false, false)
    case Spoken => f.(talking := false)
    case Unspoken => if f.waiting && !f.talking then Face(false, false, false) else f
    case Listening => if f.waiting && !f.talking then Face(false, false, false) else f
  }

  function Told(f: Face, ns: seq<Notice>): Face
    decreases |ns|
  {
    if ns == [] then f else Told(Hears(f, ns[0]), ns[1..])
  }

  lemma {:induction false} ToldMore(f: Face, ns: seq<Notice>, n: Notice)
    ensures Told(f, ns + [n]) == Hears(Told(f, ns), n)
    decreases |ns|
  {
    if ns == [] {
      assert ns + [n] == [n] && [n][1..] == [];
    } else {
      assert (ns + [n])[1..] == ns[1..] + [n];
      ToldMore(Hears(f, ns[0]), ns[1..], n);
    }
  }

  /** Nothing but words begun makes her talk, and nothing makes her wait. */
  lemma {:induction false} ToldLess(f: Face, g: Face, ns: seq<Notice>)
    requires f.talking ==> g.talking
    ensures Told(f, ns).talking ==> Told(g, ns).talking
    ensures !f.waiting ==> !Told(f, ns).waiting
    ensures !f.timer ==> !Told(f, ns).timer
    decreases |ns|
  {
    if ns != [] { ToldLess(Hears(f, ns[0]), Hears(g, ns[0]), ns[1..]); }
  }

  function Ends(w: World): Face { Told(FaceOf(w.page), w.notices) }

  /** The face is the natural voice's or goes by the notices, which say what the computer voice does. */
  ghost predicate Faces(w: World) {
    && (w.page.on ==> w.page.talking && !w.page.waiting)
    && (w.page.pending ==> !w.page.talking)
    && (w.page.waiting ==> w.page.timer)
    && (Ends(w).talking ==> w.computer.Sounding?)
    && (w.computer.Sounding? && w.line == [] ==> Ends(w) == Face(true, false, false))
  }

  // ---- one step keeps it -----------------------------------------------------------------------------------------

  /** The computer voice has nothing left to say while the natural one is fetched or heard. */
  lemma NaturalAlone(w: World)
    requires Inv(w) && Faces(w) && (w.page.pending || w.page.on)
    ensures w.line == [] ==> w.computer == Quiet
    ensures !FaceOf(w.page).talking
  {
  }

  lemma SayFaces(w: World, offered: bool)
    requires Inv(w) && Faces(w)
    ensures Faces(Say(w, offered))
  {
    ToldLess(FaceOf(Say(w, offered).page), FaceOf(w.page), w.notices);
  }

  lemma HushFaces(w: World)
    requires Inv(w) && Faces(w)
    ensures Faces(Hush(w))
  {
    var x := Hush(w);
    ToldLess(FaceOf(x.page), FaceOf(w.page), w.notices);
    ToldLess(FaceOf(w.page), FaceOf(x.page), w.notices);
  }

  lemma FallbackFaces(w: World, g: nat)
    requires Inv(w) && Faces(w) && g in w.said && (g == w.page.gen ==> w.page.pending)
    ensures Faces(Fallback(w, g))
  {
    ToldLess(FaceOf(Fallback(w, g).page), FaceOf(w.page), w.notices);
  }

  /** While the natural voice is on its way or heard, its own changes leave the notices' part alone. */
  lemma NaturalFaces(w: World, x: World)
    requires Inv(w) && Faces(w) && (w.page.pending || w.page.on)
    requires x.notices == w.notices && x.computer == w.computer && x.line == w.line
    requires !(x.page.talking && !x.page.on)
    requires x.page.on ==> x.page.talking && !x.page.waiting
    requires x.page.pending ==> !x.page.talking
    requires x.page.waiting ==> x.page.timer
    ensures Faces(x)
  {
    NaturalAlone(w);
    ToldLess(FaceOf(x.page), FaceOf(w.page), w.notices);
  }

  lemma PlayItFaces(w: World, g: nat, mic: bool, refused: Option<Player.Why>)
    requires Inv(w) && Faces(w) && g in w.said && g == w.page.gen && w.page.pending
    ensures Faces(PlayIt(w, g, mic, refused))
  {
    NaturalFaces(w, PlayIt(w, g, mic, refused));
  }

  lemma WarmedFaces(w: World, e: Event)
    requires Inv(w) && Faces(w) && Enabled(w, e) && (e.Warms? || e.Answers?)
    ensures Faces(Apply(w, e))
  {
    assert e.g == w.page.gen ==> w.page.pending || w.page.on;
    assert e.g == w.page.gen ==> w.page.stop == None;
    if e.Warms? {
      if !e.running { FallbackFaces(w, e.g); }
      else if e.g == w.page.gen && e.kept { PlayItFaces(w, e.g, e.mic, e.refused); }
    } else {
      if e.answer == Refused || e.answer == TimedOut { FallbackFaces(w, e.g); }
      else if e.g == w.page.gen && e.answer == NoAudio { FallbackFaces(w, e.g); }
      else if e.g == w.page.gen { PlayItFaces(w, e.g, e.mic, e.refused); }
    }
  }

  lemma CallsFace(w: World, u: Player.State, i: nat, cs: seq<Player.Callback>)
    requires OnlyCurrent(w, u, i) && Faces(w) && cs != [] && Brings(w.voice, u, i, cs) && w.page.gen in w.said
    ensures Faces(Calls(w.(voice := u), w.page.gen, i, cs))
  {
    var g := w.page.gen;
    var v := w.(voice := u);
    Current(w, i);
    assert w.page.pending || w.page.on;
    if |cs| == 2 {
      TwoCalls(v, g, i, cs);
      NaturalFaces(w, Calls(v, g, i, cs));
    } else {
      OneCall(v, g, i, cs);
      if cs[0].OnFail? {
        var x := Fallback(v, g);
        ToldLess(FaceOf(x.page), FaceOf(w.page), w.notices);
      } else {
        NaturalFaces(w, Calls(v, g, i, cs));
      }
    }
  }

  lemma PlayFaces(w: World, e: Player.Event)
    requires Inv(w) && Faces(w) && FromOutside(e) && Player.Enabled(w.voice, e)
    ensures Faces(Play(w, e))
  {
    OthersAlone(w.voice, e);
    var u := Player.Apply(w.voice, e);
    var i, cs := e.i, NewCalls(w.voice, u, e.i);
    assert w.owner[i] in w.said;
    if w.voice.plays[i].over {
      OverBringsNothing(w.voice, e);
    } else {
      LiveBrings(w.voice, e);
      assert w.voice.current == Some(i);
      if cs != [] {
        Current(w, i);
        CallsFace(w, u, i, cs);
      }
    }
  }

  lemma NoticeFaces(w: World)
    requires Inv(w) && Faces(w) && w.notices != []
    ensures Faces(Apply(w, Notices))
  {
    var x, n := Apply(w, Notices), w.notices[0];
    if w.page.pending || w.page.on {
      NaturalAlone(w);
      ToldLess(FaceOf(x.page), Hears(FaceOf(w.page), n), w.notices[1..]);
    } else {
      assert FaceOf(x.page) == Hears(FaceOf(w.page), n);
    }
  }

  /** The computer voice falls silent: if it sounded, that is told. */
  lemma HaltedFaces(w: World, x: World)
    requires Inv(w) && Faces(w) && x.page == w.page && !x.computer.Sounding?
    requires x.notices == if w.computer.Sounding? then w.notices + [Spoken] else w.notices
    ensures Faces(x) && !Ends(x).talking
  {
    ToldMore(FaceOf(w.page), w.notices, Spoken);
  }

  lemma OneNoticeMore(w: World, n: Notice)
    requires Faces(w) && !w.computer.Sounding? && (n == Unspoken || n == Listening)
    ensures Faces(w.(notices := w.notices + [n])) && !Ends(w.(notices := w.notices + [n])).waiting
  {
    ToldMore(FaceOf(w.page), w.notices, n);
  }

  lemma ReceivesFaces(w: World, mute: bool)
    requires Inv(w) && Faces(w) && w.line != []
    ensures Faces(Receive(w, mute))
  {
    var h := Halted(w).(line := w.line[1..]);
    HaltedFaces(w, h);
    if w.line[0].Speak? {
      if mute { OneNoticeMore(h, Unspoken); } else { HaltedFaces(w, h.(computer := Rendering(w.line[0].g))); }
    }
  }

  lemma SoundFaces(w: World, e: Event)
    requires Inv(w) && Faces(w) && Enabled(w, e) && (e.Sounds? || e.Level? || e.KeysHeld?)
    ensures Faces(Apply(w, e))
  {
    ToldMore(FaceOf(w.page), w.notices, SpeakingNow);
    ToldMore(FaceOf(w.page), w.notices, Listening);
  }

  lemma FinishFaces(w: World)
    requires Inv(w) && Faces(w) && Enabled(w, Finishes)
    ensures Faces(Apply(w, Finishes))
  {
    ToldMore(FaceOf(w.page), w.notices, Spoken);
    ToldMore(FaceOf(w.page), w.notices, Unspoken);
  }

  lemma KeysFace(w: World, opens: bool)
    requires Inv(w) && Faces(w)
    ensures Faces(Apply(w, KeysDown(opens)))
  {
    HaltedFaces(w, Halted(w));
    if opens { OneNoticeMore(Halted(w), Listening); }
  }

  /** What the other process does, it tells. */
  lemma ComputerFaces(w: World, e: Event)
    requires Inv(w) && Faces(w) && Enabled(w, e)
    requires e.Receives? || e.Sounds? || e.Level? || e.Finishes? || e.KeysDown? || e.KeysHeld?
    ensures Faces(Apply(w, e))
  {
    match e
    case Receives(mute) => ReceivesFaces(w, mute);
    case Finishes => FinishFaces(w);
    case KeysDown(opens) => KeysFace(w, opens);
    case _ => SoundFaces(w, e);
  }

  lemma TimerFaces(w: World)
    requires Inv(w) && Faces(w) && w.page.timer
    ensures Faces(Apply(w, TimerFires))
  {
    var x := Apply(w, TimerFires);
    ToldLess(FaceOf(x.page), FaceOf(w.page), w.notices);
    ToldLess(FaceOf(w.page), FaceOf(x.page), w.notices);
  }

  lemma StepFaces(w: World, e: Event)
    requires Inv(w) && Faces(w) && Enabled(w, e)
    ensures Faces(Apply(w, e))
  {
    match e
    case Says(offered) => SayFaces(w, offered);
    case Hushes => HushFaces(w);
    case Warms(_, _, _, _, _) => WarmedFaces(w, e);
    case Answers(_, _, _, _) => WarmedFaces(w, e);
    case Plays(p) => PlayFaces(w, p);
    case TimerFires => TimerFaces(w);
    case Notices => NoticeFaces(w);
    case _ => ComputerFaces(w, e);
  }

  lemma {:induction false} FacesAlways(es: seq<Event>)
    requires Possible(SILENT, es)
    ensures Faces(After(SILENT, es))
    decreases |es|
  {
    if es != [] {
      FacesAlways(es[..|es| - 1]);
      InvAlways(es[..|es| - 1]);
      StepFaces(After(SILENT, es[..|es| - 1]), es[|es| - 1]);
    }
  }

  // ---- what the page shows ---------------------------------------------------------------------------------------

  /**
   * In every run, once the line and the notices are read, her face talks exactly while a voice sounds; and while the
   * computer's does no wait is running, so that a hush silences her.
   */
  lemma TalkingIsSounding(es: seq<Event>)
    requires Possible(SILENT, es) && After(SILENT, es).line == [] && After(SILENT, es).notices == []
    ensures var w := After(SILENT, es);
      && (w.page.talking <==> w.computer.Sounding? || w.page.on)
      && (w.computer.Sounding? ==> !w.page.timer && !w.page.waiting && Silenced(Hush(w)))
  {
    FacesAlways(es);
    InvAlways(es);
    var w := After(SILENT, es);
    if w.page.pending || w.page.on { NaturalAlone(w); }
    if w.computer.Sounding? { HushSilencesIff(w); }
  }

  // ---- no wait for nothing ---------------------------------------------------------------------------------------

  /** A wait is for something still to be said, or it ends with what the page is told next. */
  ghost predicate WaitsForWords(w: World) {
    !w.page.pending && !w.page.on && LeftWith(w) == None ==> !Ends(w).waiting
  }

  lemma NotWaiting(w: World)
    requires !w.page.waiting
    ensures !Ends(w).waiting
  {
    ToldLess(FaceOf(w.page), FaceOf(w.page), w.notices);
  }

  lemma ReceivesEndsWait(w: World, mute: bool)
    requires Inv(w) && Faces(w) && WaitsForWords(w) && w.line != []
    ensures WaitsForWords(Receive(w, mute))
  {
    var h := Halted(w).(line := w.line[1..]);
    HaltedFaces(w, h);
    ReceivingLeaves(w, mute);
    ToldMore(FaceOf(w.page), w.notices, Spoken);
    if w.line[0].Speak? && mute { OneNoticeMore(h, Unspoken); }
    if |w.line| > 1 { assert h.line[|h.line| - 1] == w.line[|w.line| - 1]; }
  }

  lemma FinishEndsWait(w: World)
    requires Inv(w) && Faces(w) && WaitsForWords(w) && Enabled(w, Finishes)
    ensures WaitsForWords(Apply(w, Finishes))
  {
    ToldMore(FaceOf(w.page), w.notices, Spoken);
    ToldMore(FaceOf(w.page), w.notices, Unspoken);
  }

  lemma KeysEndWait(w: World, e: Event)
    requires Inv(w) && Faces(w) && WaitsForWords(w) && (e == KeysDown(true) || e.KeysHeld?)
    ensures WaitsForWords(Apply(w, e))
  {
    if e.KeysHeld? {
      ToldMore(FaceOf(w.page), w.notices, Listening);
    } else {
      HaltedFaces(w, Halted(w));
      OneNoticeMore(Halted(w), Listening);
    }
  }

  lemma SoundKeepsWait(w: World, e: Event)
    requires WaitsForWords(w) && Enabled(w, e) && (e.Sounds? || e.Level?)
    ensures WaitsForWords(Apply(w, e))
  {
    ToldMore(FaceOf(w.page), w.notices, SpeakingNow);
  }

  lemma PlayEndsWait(w: World, e: Player.Event)
    requires Inv(w) && Faces(w) && WaitsForWords(w) && FromOutside(e) && Player.Enabled(w.voice, e)
    ensures WaitsForWords(Play(w, e))
  {
    PlayFaces(w, e);
    OthersAlone(w.voice, e);
    var u := Player.Apply(w.voice, e);
    var i, cs := e.i, NewCalls(w.voice, u, e.i);
    assert w.owner[i] in w.said;
    if w.voice.plays[i].over {
      OverBringsNothing(w.voice, e);
    } else {
      LiveBrings(w.voice, e);
      assert w.voice.current == Some(i);
      if cs != [] {
        Current(w, i);
        CallsEndWait(w, u, i, cs);
      }
    }
  }

  lemma CallsEndWait(w: World, u: Player.State, i: nat, cs: seq<Player.Callback>)
    requires OnlyCurrent(w, u, i) && Faces(w) && cs != [] && Brings(w.voice, u, i, cs) && w.page.gen in w.said
    ensures WaitsForWords(Calls(w.(voice := u), w.page.gen, i, cs))
  {
    var g := w.page.gen;
    var v := w.(voice := u);
    Current(w, i);
    var x := Calls(v, g, i, cs);
    if |cs| == 2 { TwoCalls(v, g, i, cs); } else { OneCall(v, g, i, cs); }
    if !x.page.waiting { NotWaiting(x); }
  }

  lemma NoticeEndsWait(w: World)
    requires Inv(w) && Faces(w) && WaitsForWords(w) && w.notices != []
    ensures WaitsForWords(Apply(w, Notices))
  {
    var x := Apply(w, Notices);
    if w.page.pending || w.page.on {
      if !x.page.waiting { NotWaiting(x); }
    } else {
      assert FaceOf(x.page) == Hears(FaceOf(w.page), w.notices[0]);
    }
  }

  lemma WarmedEndsWait(w: World, e: Event)
    requires Inv(w) && Faces(w) && WaitsForWords(w) && Enabled(w, e) && (e.Warms? || e.Answers?)
    ensures WaitsForWords(Apply(w, e))
  {
    assert e.g == w.page.gen ==> w.page.pending || w.page.on;
    var x := Apply(w, e);
    if !x.page.waiting { NotWaiting(x); }
  }

  lemma StepEndsWait(w: World, e: Event)
    requires Inv(w) && Faces(w) && WaitsForWords(w) && Enabled(w, e) && e != KeysDown(false)
    ensures WaitsForWords(Apply(w, e))
  {
    match e
    case Receives(mute) => ReceivesEndsWait(w, mute);
    case Finishes => FinishEndsWait(w);
    case KeysDown(_) => KeysEndWait(w, e);
    case KeysHeld => KeysEndWait(w, e);
    case Sounds => SoundKeepsWait(w, e);
    case Level => SoundKeepsWait(w, e);
    case Plays(p) => PlayEndsWait(w, p);
    case Notices => NoticeEndsWait(w);
    case Warms(_, _, _, _, _) => WarmedEndsWait(w, e);
    case Answers(_, _, _, _) => WarmedEndsWait(w, e);
    case TimerFires => NotWaiting(Apply(w, e));
    case Hushes => NotWaiting(Apply(w, e));
    case Says(_) =>
  }

  /**
   * When all is read, nothing is fetched and no voice has anything to say, Stop is not offered: unless the talk keys
   * cut off words before their first sound, without the microphone opening, which only the 12 seconds end.
   */
  lemma {:induction false} NoWaitForNothing(es: seq<Event>)
    requires Possible(SILENT, es) && KeysDown(false) !in es
    ensures WaitsForWords(After(SILENT, es))
    ensures var w := After(SILENT, es);
      w.notices == [] && w.line == [] && w.computer == Quiet && !w.page.pending && !w.page.on ==> !Aloud(w.page)
    decreases |es|
  {
    if es != [] {
      NoWaitForNothing(es[..|es| - 1]);
      InvAlways(es[..|es| - 1]);
      FacesAlways(es[..|es| - 1]);
      assert es[|es| - 1] in es;
      StepEndsWait(After(SILENT, es[..|es| - 1]), es[|es| - 1]);
    }
    FacesAlways(es);
  }

  // ---- a hush at once --------------------------------------------------------------------------------------------

  /** Nothing newer is said, nothing hushed, no wait has ended and nothing was read of the other process. */
  predicate Unread(e: Event) { !e.Says? && !e.Hushes? && !e.TimerFires? && !e.Notices? }

  /** She is known to be speaking or about to, or no voice has anything to say. */
  ghost predicate StillAloud(w: World) {
    && (w.page.pending ==> w.page.waiting)
    && (Aloud(w.page) || (LeftWith(w) == None && !w.page.pending && !w.page.on))
  }

  lemma CallsStayAloud(w: World, u: Player.State, i: nat, cs: seq<Player.Callback>)
    requires OnlyCurrent(w, u, i) && cs != [] && Brings(w.voice, u, i, cs) && w.page.gen in w.said
    requires Faces(w) && StillAloud(w)
    ensures StillAloud(Calls(w.(voice := u), w.page.gen, i, cs))
  {
    var g := w.page.gen;
    Current(w, i);
    if |cs| == 2 { TwoCalls(w.(voice := u), g, i, cs); } else { OneCall(w.(voice := u), g, i, cs); }
  }

  lemma PlayStaysAloud(w: World, e: Player.Event)
    requires Inv(w) && Faces(w) && StillAloud(w) && FromOutside(e) && Player.Enabled(w.voice, e)
    ensures StillAloud(Play(w, e))
  {
    OthersAlone(w.voice, e);
    var u := Player.Apply(w.voice, e);
    var i, cs := e.i, NewCalls(w.voice, u, e.i);
    assert w.owner[i] in w.said;
    if w.voice.plays[i].over {
      OverBringsNothing(w.voice, e);
    } else {
      LiveBrings(w.voice, e);
      assert w.voice.current == Some(i);
      if cs != [] {
        Current(w, i);
        CallsStayAloud(w, u, i, cs);
      }
    }
  }

  lemma StepStaysAloud(w: World, e: Event)
    requires Inv(w) && Faces(w) && StillAloud(w) && Enabled(w, e) && Unread(e)
    ensures StillAloud(Apply(w, e))
  {
    match e
    case Plays(p) => PlayStaysAloud(w, p);
    case Receives(mute) => ReceivingLeaves(w, mute);
    case Warms(_, _, _, _, _) => assert e.g == w.page.gen ==> w.page.pending || w.page.on;
    case Answers(_, _, _, _) => assert e.g == w.page.gen ==> w.page.pending || w.page.on;
    case _ =>
  }

  lemma {:induction false} StaysAloud(w: World, es: seq<Event>)
    requires Inv(w) && Faces(w) && StillAloud(w) && Possible(w, es)
    requires forall k | 0 <= k < |es| :: Unread(es[k])
    ensures Inv(After(w, es)) && Faces(After(w, es)) && StillAloud(After(w, es))
    decreases |es|
  {
    if es != [] {
      StaysAloud(w, es[..|es| - 1]);
      StepKeeps(After(w, es[..|es| - 1]), es[|es| - 1]);
      StepFaces(After(w, es[..|es| - 1]), es[|es| - 1]);
      StepStaysAloud(After(w, es[..|es| - 1]), es[|es| - 1]);
    }
  }

  /**
   * From the moment something is said a hush silences it, in whichever voice it is by then, until the wait ends or the
   * page reads what the other process tells it.
   */
  lemma HushAtOnce(es: seq<Event>, offered: bool, later: seq<Event>)
    requires Possible(SILENT, es) && Possible(Say(After(SILENT, es), offered), later)
    requires forall k | 0 <= k < |later| :: Unread(later[k])
    ensures Silenced(Hush(After(Say(After(SILENT, es), offered), later)))
  {
    InvAlways(es);
    FacesAlways(es);
    var w := After(SILENT, es);
    SayKeeps(w, offered);
    SayFaces(w, offered);
    StaysAloud(Say(w, offered), later);
    HushSilencesIff(After(Say(w, offered), later));
  }

  /** The newer words are on the line, and the older ones sound: told by a notice, or already known. */
  predicate OlderSounds(w: World, known: bool) {
    && w.line == [Speak(2)] && w.computer == Sounding(1) && w.notices == (if known then [] else [SpeakingNow])
    && w.page.gen == 2 && w.page.talking == known && w.page.waiting == !known
    && !w.page.pending && !w.page.on && !w.page.ending
  }

  lemma OverWithOlder(w: World)
    requires OlderSounds(w, true)
    ensures var es := [Receives(false), Notices, Hushes, Sounds];
      Possible(w, es) && After(w, es).computer == Sounding(2) && After(w, es).page.gen == 3
  {
    var w1 := Apply(w, Receives(false));
    assert w1.notices == [Spoken];
    var w2 := Apply(w1, Notices);
    assert !Aloud(w2.page) && w2.computer == Rendering(2);
    var w3 := Apply(w2, Hushes);
    var none: seq<Event> := [];
    assert Possible(Apply(w3, Sounds), none);
    Prepend(w3, Sounds, none);
    Prepend(w2, Hushes, [Sounds] + none);
    Prepend(w1, Notices, [Hushes] + ([Sounds] + none));
    Prepend(w, Receives(false), [Notices] + ([Hushes] + ([Sounds] + none)));
    assert [Receives(false), Notices, Hushes, Sounds]
        == [Receives(false)] + ([Notices] + ([Hushes] + ([Sounds] + none)));
  }

  lemma TakenForOlder(w: World)
    requires OlderSounds(w, false)
    ensures var es := [Notices, Receives(false), Notices, Hushes, Sounds];
      Possible(w, es) && After(w, es).computer == Sounding(2) && After(w, es).page.gen == 3
  {
    var end := [Receives(false), Notices, Hushes, Sounds];
    OverWithOlder(Apply(w, Notices));
    Prepend(w, Notices, end);
    assert [Notices] + end == [Notices, Receives(false), Notices, Hushes, Sounds];
  }

  /**
   * After that it may not: what is said while the older words' beginning is still unread is taken for heard with them,
   * and over with them.
   */
  lemma SaidTooSoon()
    ensures var es := [Says(false), Receives(false), Sounds, Says(false)] +
                      [Notices, Receives(false), Notices, Hushes, Sounds];
      Possible(SILENT, es) && After(SILENT, es).computer == Sounding(2) && After(SILENT, es).page.gen == 3
  {
    var w1 := Apply(SILENT, Says(false));
    assert w1.line == [Speak(1)];
    var w2 := Apply(w1, Receives(false));
    var w3 := Apply(w2, Sounds);
    assert w3.notices == [SpeakingNow];
    var w4 := Apply(w3, Says(false));
    assert w4.line == [Speak(2)];
    var end := [Notices, Receives(false), Notices, Hushes, Sounds];
    TakenForOlder(w4);
    Prepend(w3, Says(false), end);
    Prepend(w2, Sounds, [Says(false)] + end);
    Prepend(w1, Receives(false), [Sounds] + ([Says(false)] + end));
    Prepend(SILENT, Says(false), [Receives(false)] + ([Sounds] + ([Says(false)] + end)));
    assert [Says(false), Receives(false), Sounds, Says(false)] + end
        == [Says(false)] + ([Receives(false)] + ([Sounds] + ([Says(false)] + end)));
  }

  // ---- what an answer does ---------------------------------------------------------------------------------------

  /** The audio is there, kept from before or just sent. */
  predicate BringsAudio(e: Event) { (e.Warms? && e.running && e.kept) || (e.Answers? && e.answer == Audio) }

  /** The context will not run, or there is no audio in time. */
  predicate BringsNone(e: Event) { (e.Warms? && !e.running) || (e.Answers? && e.answer != Audio) }

  /**
   * An answer for anything but the newest words touches neither voice. For the newest, audio is played at once unless
   * the microphone is open, which ends it; no audio gives the words to the computer voice; and a context that runs has
   * the audio asked for.
   */
  lemma WhereAnAnswerLeads(w: World, e: Event)
    requires Inv(w) && Enabled(w, e) && (e.Warms? || e.Answers?)
    ensures var x, i := Apply(w, e), |w.voice.plays|;
      if e.g != w.page.gen then x.page == w.page && x.line == w.line && x.voice == w.voice
      else if BringsAudio(e) && !e.mic then
        && x.said[e.g].stage == Playing(i) && x.page.stop == Some(i) && x.line == w.line
        && x.owner == w.owner + [e.g] && |x.voice.plays| == i + 1 && x.voice.current == Some(i)
        && x.voice.plays[i].awaits == (if e.refused.Some? then Player.Task(e.refused.value) else Player.Context)
      else if BringsAudio(e) then
        && x.said[e.g].stage == Dropped && x.line == w.line && x.voice == w.voice
        && !x.page.pending && !x.page.waiting && !x.page.timer
      else if BringsNone(e) then
        && x.said[e.g].stage == ToComputer && x.line == w.line + [Speak(e.g)] && x.voice == w.voice
        && !x.page.pending && x.page.waiting == w.page.waiting && x.page.timer
      else x.said[e.g].stage == Asking && x.page == w.page && x.line == w.line && x.voice == w.voice
  {
    assert Once(w, e.g);
    assert e.g == w.page.gen ==> w.page.pending || w.page.on;
    if w.page.stop.Some? { assert w.owner[w.page.stop.value] == w.page.gen; }
  }
}
