/**
 * Reading an answer aloud, with two voices: the natural one, fetched and played in the page, and the computer's own, in
 * another process at the end of a line of commands. Whatever was set going still arrives after something newer is said
 * or she is hushed, so each utterance carries the generation it was said under.
 */
module Speaking {
  import opened Options
  import Player

  /**
   * `gen` to `stop` are the natural voice's; `waiting`: said but not heard yet; `ending`: her face ends after this
   * step.
   */
  datatype Page = Page(
    gen: nat, pending: bool, on: bool, stop: Option<nat>, talking: bool, waiting: bool, timer: bool, ending: bool)

  datatype Command = Speak(g: nat) | Halt

  /** What the other process tells the page. */
  datatype Notice = SpeakingNow | Spoken | Unspoken | Listening

  datatype Computer = Quiet | Rendering(g: nat) | Sounding(g: nat)

  /** Where an utterance is: being fetched, in the natural player, given to the computer voice, or over. */
  datatype Stage = Warming | Asking | Playing(i: nat) | Heard(i: nat) | ToComputer | Dropped | Overtaken

  /** `speaks`: how often its words were sent to the computer voice. */
  datatype Utterance = Utterance(stage: Stage, speaks: nat)

  datatype World = World(
    page: Page, voice: Player.State, owner: seq<nat>, said: map<nat, Utterance>,
    line: seq<Command>, computer: Computer, notices: seq<Notice>)

  const SILENT := World(Page(0, false, false, None, false, false, false, false), Player.START, [], map[], [], Quiet, [])

  predicate Aloud(p: Page) { p.talking || p.waiting }

  // ---- the page's own steps --------------------------------------------------------------------------------------

  function StopNatural(p: Page): Page {
    p.(gen := p.gen + 1, pending := false, stop := None, on := false, ending := p.ending || p.on)
  }

  function TalkStarted(p: Page): Page {
    if p.talking then p else p.(talking := true, waiting := false, timer := false)
  }

  function TalkEnded(p: Page): Page { p.(talking := false) }

  /** The queued end of her face runs when the step that queued it is done. */
  function Settle(p: Page): Page { if p.ending then TalkEnded(p).(ending := false) else p }

  function SayPage(p: Page, offered: bool): Page {
    var q := StopNatural(p).(waiting := true, timer := true);
    Settle(if offered then q.(pending := true, talking := false) else q)
  }

  function HushPage(p: Page): Page {
    var q := StopNatural(p.(timer := false));
    Settle(if Aloud(q) then q.(waiting := false) else q)
  }

  function FallbackPage(p: Page): Page { p.(pending := false, stop := None, timer := true) }

  function DropPage(p: Page): Page { p.(pending := false, waiting := false, timer := false) }

  function HearPage(p: Page, n: Notice): Page {
    match n
    case Listening =>
      var q := if p.pending || p.on then StopNatural(p).(waiting := false, timer := false) else p;
      Settle(if q.waiting && !q.talking then q.(waiting := false, timer := false) else q)
    case SpeakingNow => if p.pending || p.on then p else TalkStarted(p)
    case Spoken => if p.pending || p.on then p else TalkEnded(p)
    case Unspoken => if p.pending || p.on || p.talking || !p.waiting then p else p.(waiting := false, timer := false)
  }

  /** Stopping the natural voice stops what it plays. */
  function StopPlaying(v: Player.State, p: Page): Player.State {
    if p.stop.Some? && p.stop.value < |v.plays| then Player.Stopped(v, p.stop.value) else v
  }

  // ---- the steps of an utterance ---------------------------------------------------------------------------------

  function Move(w: World, g: nat, stage: Stage): World
    requires g in w.said
  {
    w.(said := w.said[g := w.said[g].(stage := stage)])
  }

  function Say(w: World, offered: bool): World {
    var p := SayPage(w.page, offered);
    w.(page := p, voice := StopPlaying(w.voice, w.page),
       line := w.line + [if offered then Halt else Speak(p.gen)],
       said := w.said[p.gen := if offered then Utterance(Warming, 0) else Utterance(ToComputer, 1)])
  }

  function Hush(w: World): World {
    w.(page := HushPage(w.page), voice := StopPlaying(w.voice, w.page),
       line := if Aloud(w.page) then w.line + [Halt] else w.line)
  }

  function Fallback(w: World, g: nat): World
    requires g in w.said
  {
    if g != w.page.gen then (if w.said[g].stage.Playing? then w else Move(w, g, Overtaken))
    else w.(page := FallbackPage(w.page), line := w.line + [Speak(g)],
            said := w.said[g := Utterance(ToComputer, w.said[g].speaks + 1)])
  }

  /** The audio is here: nothing is said over an open microphone, otherwise it is played. */
  function PlayIt(w: World, g: nat, mic: bool, refused: Option<Player.Why>): World
    requires g in w.said
  {
    if mic then Move(w, g, Dropped).(page := DropPage(w.page))
    else
      var i := |w.voice.plays|;
      Move(w, g, Playing(i)).(voice := Player.Began(w.voice, refused), owner := w.owner + [g],
                              page := w.page.(stop := Some(i)))
  }

  /** How the speech route answered in time, if it did. */
  datatype Answer = Audio | NoAudio | Refused | TimedOut

  function Warmed(w: World, g: nat, running: bool, kept: bool, mic: bool, refused: Option<Player.Why>): World
    requires g in w.said
  {
    if !running then Fallback(w, g)
    else if g != w.page.gen then Move(w, g, Overtaken)
    else if kept then PlayIt(w, g, mic, refused)
    else Move(w, g, Asking)
  }

  function Answered(w: World, g: nat, a: Answer, mic: bool, refused: Option<Player.Why>): World
    requires g in w.said
  {
    if a == Refused || a == TimedOut then Fallback(w, g)
    else if g != w.page.gen then Move(w, g, Overtaken)
    else if a == NoAudio then Fallback(w, g)
    else PlayIt(w, g, mic, refused)
  }

  /** One callback of utterance `g`'s player. */
  function Call(w: World, g: nat, i: nat, c: Player.Callback): (r: World)
    requires g in w.said
    ensures g in r.said
  {
    match c
    case OnStart => if g != w.page.gen then w else w.(page := TalkStarted(w.page.(pending := false, on := true)))
    case OnLevel(_) => w
    case OnEnd =>
      if g != w.page.gen then w
      else Move(w, g, Heard(i)).(page := TalkEnded(w.page.(stop := None, on := false)))
    case OnFail(_) => Fallback(w, g)
  }

  function Calls(w: World, g: nat, i: nat, cs: seq<Player.Callback>): World
    requires g in w.said
    decreases |cs|
  {
    if cs == [] then w else Calls(Call(w, g, i, cs[0]), g, i, cs[1..])
  }

  /** The callbacks an event of the player brings. */
  function NewCalls(v: Player.State, u: Player.State, i: nat): seq<Player.Callback> {
    if i < |v.plays| && i < |u.plays| && |v.plays[i].log| <= |u.plays[i].log|
    then u.plays[i].log[|v.plays[i].log|..] else []
  }

  predicate FromOutside(e: Player.Event) { !e.Begin? && !e.Stop? }

  function Play(w: World, e: Player.Event): World
    requires FromOutside(e) && Player.Enabled(w.voice, e)
  {
    var u := Player.Apply(w.voice, e);
    if e.i < |w.owner| && w.owner[e.i] in w.said
    then Calls(w.(voice := u), w.owner[e.i], e.i, NewCalls(w.voice, u, e.i))
    else w.(voice := u)
  }

  // ---- the other process -----------------------------------------------------------------------------------------

  function Halted(w: World): World {
    w.(computer := Quiet, notices := if w.computer.Sounding? then w.notices + [Spoken] else w.notices)
  }

  /** The next command: a speech replaces the last, and is not begun over an open microphone or with nothing to say. */
  function Receive(w: World, mute: bool): World
    requires w.line != []
  {
    var h := Halted(w).(line := w.line[1..]);
    match w.line[0]
    case Halt => h
    case Speak(g) => if mute then h.(notices := h.notices + [Unspoken]) else h.(computer := Rendering(g))
  }

  datatype Event =
    | Says(offered: bool)
    | Hushes
    | Warms(g: nat, running: bool, kept: bool, mic: bool, refused: Option<Player.Why>)
    | Answers(g: nat, answer: Answer, mic: bool, refused: Option<Player.Why>)
    | Plays(e: Player.Event)
    | TimerFires
    | Notices                                  // the page reads what it was told next
    | Receives(mute: bool)
    | Sounds                                   // what was rendered is heard
    | Level
    | Finishes
    | KeysDown(opens: bool)
    | KeysHeld

  predicate MayRefuse(refused: Option<Player.Why>) {
    refused.Some? ==> refused.value.BadAudio? || refused.value.Unsupported?
  }

  predicate Enabled(w: World, e: Event) {
    match e
    case Warms(g, _, _, _, refused) => g in w.said && w.said[g].stage == Warming && MayRefuse(refused)
    case Answers(g, _, _, refused) => g in w.said && w.said[g].stage == Asking && MayRefuse(refused)
    case Plays(p) => FromOutside(p) && Player.Enabled(w.voice, p)
    case TimerFires => w.page.timer
    case Notices => w.notices != []
    case Receives(_) => w.line != []
    case Sounds => w.computer.Rendering?
    case Level => w.computer.Sounding?
    case Finishes => !w.computer.Quiet?
    case _ => true
  }

  function Apply(w: World, e: Event): World
    requires Enabled(w, e)
  {
    match e
    case Says(offered) => Say(w, offered)
    case Hushes => Hush(w)
    case Warms(g, running, kept, mic, refused) => Warmed(w, g, running, kept, mic, refused)
    case Answers(g, a, mic, refused) => Answered(w, g, a, mic, refused)
    case Plays(p) => Play(w, p)
    case TimerFires => w.(page := w.page.(waiting := false, timer := false))
    case Notices =>
      w.(notices := w.notices[1..], page := HearPage(w.page, w.notices[0]),
         voice := if w.notices[0].Listening? && (w.page.pending || w.page.on) then StopPlaying(w.voice, w.page)
           else w.voice)
    case Receives(mute) => Receive(w, mute)
    case Sounds => w.(computer := Sounding(w.computer.g), notices := w.notices + [SpeakingNow])
    case Level => w.(notices := w.notices + [SpeakingNow])
    case Finishes => w.(computer := Quiet, notices := w.notices + [if w.computer.Sounding? then Spoken else Unspoken])
    case KeysDown(opens) => var h := Halted(w); if opens then h.(notices := h.notices + [Listening]) else h
    case KeysHeld => w.(notices := w.notices + [Listening])
  }

  predicate Possible(w: World, es: seq<Event>)
    decreases |es|, 0
  {
    es == [] || (Possible(w, es[..|es| - 1]) && Enabled(After(w, es[..|es| - 1]), es[|es| - 1]))
  }

  function After(w: World, es: seq<Event>): World
    requires Possible(w, es)
    decreases |es|, 1
  {
    if es == [] then w else Apply(After(w, es[..|es| - 1]), es[|es| - 1])
  }

  // ---- what every order of events keeps --------------------------------------------------------------------------

  /** Whose words the computer voice is left with once it has read its line. */
  function LeftWith(w: World): Option<nat> {
    if w.line != [] then (match w.line[|w.line| - 1] case Halt => None case Speak(g) => Some(g))
    else match w.computer case Quiet => None case Rendering(g) => Some(g) case Sounding(g) => Some(g)
  }

  /** The natural voice as the page knows it is the natural voice as it is. */
  ghost predicate InStep(w: World) {
    && Player.Inv(w.voice) && |w.owner| == |w.voice.plays|
    && w.page.stop == w.voice.current
    && (w.page.stop.Some? ==> w.owner[w.page.stop.value] == w.page.gen)
    && (w.page.on <==> w.page.stop.Some? && w.voice.plays[w.page.stop.value].started)
    && !(w.page.pending && w.page.on)
    && !w.page.ending
  }

  predicate Fetched(s: Stage) { s.Playing? || s.Heard? || s.ToComputer? }

  ghost predicate Owners(w: World) {
    && |w.owner| == |w.voice.plays|
    && (forall i, j | 0 <= i < j < |w.owner| :: w.owner[i] != w.owner[j])
    && (forall i | 0 <= i < |w.owner| :: w.owner[i] in w.said && Fetched(w.said[w.owner[i]].stage))
  }

  /** An utterance is given to the computer voice at most once, and never when it was heard from the natural one. */
  ghost predicate Once(w: World, g: nat)
    requires g in w.said && |w.owner| == |w.voice.plays|
  {
    var u := w.said[g];
    && g <= w.page.gen
    && u.speaks == (if u.stage == ToComputer then 1 else 0)
    && (u.stage.Playing? ==> u.stage.i < |w.owner| && w.owner[u.stage.i] == g)
    && (u.stage.Heard? ==> u.stage.i < |w.owner| && w.owner[u.stage.i] == g && w.voice.plays[u.stage.i].started)
    && (u.stage.ToComputer? ==>
      forall i | 0 <= i < |w.owner| && w.owner[i] == g :: w.voice.plays[i].over && !w.voice.plays[i].started)
  }

  predicate UnderWay(s: Stage) { s.Warming? || s.Asking? || s.Playing? }

  /** The newest utterance is on its way exactly while the page says so. */
  ghost predicate NewestIsKnown(w: World) {
    && (w.page.pending || w.page.on ==> w.page.gen in w.said)
    && (w.page.gen in w.said ==>
          w.said[w.page.gen].stage != Overtaken
          && (UnderWay(w.said[w.page.gen].stage) <==> w.page.pending || w.page.on)
          && (w.said[w.page.gen].stage.Playing? <==> w.page.stop.Some?)
          && (w.said[w.page.gen].stage.Playing? ==> w.page.stop == Some(w.said[w.page.gen].stage.i)))
    && (w.page.pending || w.page.on ==> LeftWith(w) == None)
  }

  ghost predicate Inv(w: World) {
    && InStep(w) && Owners(w) && NewestIsKnown(w)
    && (forall g | g in w.said :: Once(w, g))
    && (LeftWith(w).Some? ==> LeftWith(w).value <= w.page.gen)
  }

  // ---- one step keeps it -----------------------------------------------------------------------------------------

  lemma StoppingStops(w: World)
    requires InStep(w)
    ensures var u := StopPlaying(w.voice, w.page);
      && Player.Inv(u) && u.current == None && |u.plays| == |w.voice.plays|
      && forall i | 0 <= i < |u.plays| :: u.plays[i].over && u.plays[i].started == w.voice.plays[i].started
  {
    if w.page.stop.Some? { Player.StoppingKeeps(w.voice, w.page.stop.value); }
  }

  lemma SayKeeps(w: World, offered: bool)
    requires Inv(w)
    ensures Inv(Say(w, offered))
  {
    StoppingStops(w);
    var x := Say(w, offered);
    assert forall g | g in w.said :: g <= w.page.gen && x.said[g] == w.said[g];
    forall g | g in x.said ensures Once(x, g) {
      if g in w.said { assert Once(w, g); }
    }
  }

  /** The natural voice stops and nothing newer is said. */
  lemma HushingKeeps(w: World, x: World)
    requires Inv(w)
    requires x.page.gen == w.page.gen + 1 && !x.page.pending && !x.page.on && x.page.stop == None && !x.page.ending
    requires x.voice == StopPlaying(w.voice, w.page) && x.owner == w.owner && x.said == w.said
    requires LeftWith(x) == LeftWith(w) || LeftWith(x) == None
    ensures Inv(x)
  {
    StoppingStops(w);
    forall g | g in x.said ensures Once(x, g) && g < x.page.gen {
      assert Once(w, g);
    }
  }

  lemma FallingBackKeeps(w: World, g: nat)
    requires Inv(w) && g in w.said && (w.said[g].stage == Warming || w.said[g].stage == Asking)
    ensures Inv(Fallback(w, g))
  {
    var x := Fallback(w, g);
    assert Once(w, g);
    assert forall i | 0 <= i < |w.owner| :: w.owner[i] != g;
    forall k | k in x.said ensures Once(x, k) {
      assert Once(w, k);
    }
  }

  lemma MovingKeeps(w: World, g: nat, stage: Stage)
    requires Inv(w) && g in w.said && (w.said[g].stage == Warming || w.said[g].stage == Asking)
    requires if g == w.page.gen then stage == Asking else stage == Overtaken
    ensures Inv(Move(w, g, stage))
  {
    var x := Move(w, g, stage);
    assert Once(w, g);
    assert forall i | 0 <= i < |w.owner| :: w.owner[i] != g;
    forall k | k in x.said ensures Once(x, k) {
      assert Once(w, k);
    }
  }

  lemma PlayingKeeps(w: World, g: nat, mic: bool, refused: Option<Player.Why>)
    requires Inv(w) && g in w.said && (w.said[g].stage == Warming || w.said[g].stage == Asking) && g == w.page.gen
    requires MayRefuse(refused)
    ensures Inv(PlayIt(w, g, mic, refused))
  {
    var x := PlayIt(w, g, mic, refused);
    assert Once(w, g);
    assert forall i | 0 <= i < |w.owner| :: w.owner[i] != g;
    if !mic { Player.StepKeeps(w.voice, Player.Begin(refused)); }
    forall k | k in x.said ensures Once(x, k) {
      assert Once(w, k);
    }
  }

  /**
   * What an event can bring an utterance that is not over: a start, a level, an end, a start that ends at once, a
   * failure.
   */
  ghost predicate Brings(v: Player.State, u: Player.State, i: nat, cs: seq<Player.Callback>)
    requires i < |v.plays| == |u.plays|
  {
    var before, after := v.plays[i].started, u.plays[i].started;
    || (u.current == v.current && after == before && (cs == [] || (|cs| == 1 && cs[0].OnLevel?)))
    || (u.current == v.current && !before && after && cs == [Player.OnStart])
    || (u.current == None && !before && after && cs == [Player.OnStart, Player.OnEnd])
    || (u.current == None && before && after && cs == [Player.OnEnd])
    || (u.current == None && !before && !after && |cs| == 1 && cs[0].OnFail?)
  }

  lemma OthersAlone(v: Player.State, e: Player.Event)
    requires Player.Inv(v) && FromOutside(e) && Player.Enabled(v, e)
    ensures var u := Player.Apply(v, e);
      && Player.Inv(u) && |u.plays| == |v.plays|
      && forall k | 0 <= k < |v.plays| && k != e.i :: u.plays[k] == v.plays[k]
  {
    Player.StepKeeps(v, e);
  }

  lemma OverBringsNothing(v: Player.State, e: Player.Event)
    requires FromOutside(e) && Player.Enabled(v, e) && v.plays[e.i].over
    ensures var u := Player.Apply(v, e);
      && |u.plays| == |v.plays| && NewCalls(v, u, e.i) == [] && u.current == v.current
      && u.plays[e.i].over && u.plays[e.i].started == v.plays[e.i].started
  {
  }

  lemma LiveBrings(v: Player.State, e: Player.Event)
    requires Player.Inv(v) && FromOutside(e) && Player.Enabled(v, e) && !v.plays[e.i].over
    ensures var u := Player.Apply(v, e); |u.plays| == |v.plays| && Brings(v, u, e.i, NewCalls(v, u, e.i))
  {
    var u := Player.Apply(v, e);
    assert u.plays[e.i].log[|v.plays[e.i].log|..] == NewCalls(v, u, e.i);
    match e
    case Decoded(i, how) => if how == Player.ThrewHeard { assert NewCalls(v, u, i) == [Player.OnStart, Player.OnEnd]; }
    case _ =>
  }

  lemma UnheardKeeps(w: World, u: Player.State, i: nat)
    requires Inv(w) && Player.Inv(u) && |u.plays| == |w.voice.plays| && i < |u.plays|
    requires forall k | 0 <= k < |u.plays| && k != i :: u.plays[k] == w.voice.plays[k]
    requires u.current == w.voice.current && u.plays[i].started == w.voice.plays[i].started
    requires w.voice.plays[i].over ==> u.plays[i].over
    ensures Inv(w.(voice := u))
  {
    var x := w.(voice := u);
    forall k | k in x.said ensures Once(x, k) { assert Once(w, k); }
  }

  lemma OneCall(w: World, g: nat, i: nat, cs: seq<Player.Callback>)
    requires g in w.said && |cs| == 1
    ensures Calls(w, g, i, cs) == Call(w, g, i, cs[0])
  {
    assert cs[1..] == [];
  }

  lemma TwoCalls(w: World, g: nat, i: nat, cs: seq<Player.Callback>)
    requires g in w.said && |cs| == 2
    ensures Calls(w, g, i, cs) == Call(Call(w, g, i, cs[0]), g, i, cs[1])
  {
    OneCall(Call(w, g, i, cs[0]), g, i, cs[1..]);
  }

  /** Only utterance `i`, the one being played, is touched, and in its new state `u` it is over or has started. */
  ghost predicate OnlyCurrent(w: World, u: Player.State, i: nat) {
    && Inv(w) && Player.Inv(u) && |u.plays| == |w.voice.plays| && w.page.stop == Some(i)
    && (forall k | 0 <= k < |u.plays| && k != i :: u.plays[k] == w.voice.plays[k])
  }

  lemma Current(w: World, i: nat)
    requires Inv(w) && w.page.stop == Some(i)
    ensures i < |w.owner| && w.owner[i] == w.page.gen && w.page.gen in w.said
      && w.said[w.page.gen] == Utterance(Playing(i), 0)
  {
    assert Once(w, w.page.gen);
  }

  lemma StartKeeps(w: World, u: Player.State, i: nat)
    requires OnlyCurrent(w, u, i) && u.current == Some(i) && !w.voice.plays[i].started && u.plays[i].started
    ensures w.page.gen in w.said && Inv(Call(w.(voice := u), w.page.gen, i, Player.OnStart))
  {
    Current(w, i);
    var x := Call(w.(voice := u), w.page.gen, i, Player.OnStart);
    forall k | k in x.said ensures Once(x, k) { assert Once(w, k); }
  }

  lemma EndKeeps(w: World, u: Player.State, i: nat)
    requires OnlyCurrent(w, u, i) && u.current == None && w.voice.plays[i].started && u.plays[i].started
    ensures w.page.gen in w.said && Inv(Call(w.(voice := u), w.page.gen, i, Player.OnEnd))
  {
    Current(w, i);
    var x := Call(w.(voice := u), w.page.gen, i, Player.OnEnd);
    forall k | k in x.said ensures Once(x, k) { assert Once(w, k); }
  }

  /** Ended in the same breath as it started. */
  lemma StartAndEndKeeps(w: World, u: Player.State, i: nat)
    requires OnlyCurrent(w, u, i) && u.current == None && u.plays[i].started
    ensures w.page.gen in w.said
    ensures Inv(Call(Call(w.(voice := u), w.page.gen, i, Player.OnStart), w.page.gen, i, Player.OnEnd))
  {
    Current(w, i);
    var x := Call(Call(w.(voice := u), w.page.gen, i, Player.OnStart), w.page.gen, i, Player.OnEnd);
    forall k | k in x.said ensures Once(x, k) { assert Once(w, k); }
  }

  lemma FailKeeps(w: World, u: Player.State, i: nat)
    requires OnlyCurrent(w, u, i) && u.current == None && !w.voice.plays[i].started && !u.plays[i].started
    ensures w.page.gen in w.said && Inv(Fallback(w.(voice := u), w.page.gen))
  {
    Current(w, i);
    var x := Fallback(w.(voice := u), w.page.gen);
    forall k | k in x.said ensures Once(x, k) { assert Once(w, k); }
  }

  lemma CalledKeeps(w: World, u: Player.State, i: nat, cs: seq<Player.Callback>)
    requires OnlyCurrent(w, u, i) && cs != [] && Brings(w.voice, u, i, cs)
    requires w.page.gen in w.said
    ensures Inv(Calls(w.(voice := u), w.page.gen, i, cs))
  {
    var g := w.page.gen;
    var v := w.(voice := u);
    if |cs| == 2 {
      TwoCalls(v, g, i, cs);
      StartAndEndKeeps(w, u, i);
    } else {
      OneCall(v, g, i, cs);
      match cs[0]
      case OnLevel(_) => UnheardKeeps(w, u, i);
      case OnStart => StartKeeps(w, u, i);
      case OnEnd => EndKeeps(w, u, i);
      case OnFail(_) => FailKeeps(w, u, i);
    }
  }

  lemma PlayKeeps(w: World, e: Player.Event)
    requires Inv(w) && FromOutside(e) && Player.Enabled(w.voice, e)
    ensures Inv(Play(w, e))
  {
    OthersAlone(w.voice, e);
    var u := Player.Apply(w.voice, e);
    var i, cs := e.i, NewCalls(w.voice, u, e.i);
    assert w.owner[i] in w.said;
    if w.voice.plays[i].over {
      OverBringsNothing(w.voice, e);
      UnheardKeeps(w, u, i);
    } else {
      LiveBrings(w.voice, e);
      assert w.voice.current == Some(i);
      if cs == [] {
        UnheardKeeps(w, u, i);
      } else {
        Current(w, i);
        CalledKeeps(w, u, i, cs);
      }
    }
  }

  lemma NoticeKeeps(w: World)
    requires Inv(w) && w.notices != []
    ensures Inv(Apply(w, Notices))
  {
    var x := Apply(w, Notices);
    if w.notices[0].Listening? && (w.page.pending || w.page.on) {
      HushingKeeps(w, x);
    } else {
      forall k | k in x.said ensures Once(x, k) { assert Once(w, k); }
    }
  }

  lemma OutsideKeeps(w: World, x: World)
    requires Inv(w)
    requires x.page == w.page || x.page == w.page.(waiting := false, timer := false)
    requires x.voice == w.voice && x.owner == w.owner && x.said == w.said
    requires LeftWith(x) == LeftWith(w) || LeftWith(x) == None
    ensures Inv(x)
  {
    forall k | k in x.said ensures Once(x, k) { assert Once(w, k); }
  }

  lemma ReceivingLeaves(w: World, mute: bool)
    requires w.line != []
    ensures LeftWith(Receive(w, mute)) == LeftWith(w) || LeftWith(Receive(w, mute)) == None
  {
    if |w.line| > 1 {
      assert w.line[1..][|w.line| - 2] == w.line[|w.line| - 1];
    }
  }

  lemma WarmedKeeps(w: World, g: nat, running: bool, kept: bool, mic: bool, refused: Option<Player.Why>)
    requires Inv(w) && g in w.said && w.said[g].stage == Warming && MayRefuse(refused)
    ensures Inv(Warmed(w, g, running, kept, mic, refused))
  {
    if !running { FallingBackKeeps(w, g); }
    else if g != w.page.gen { MovingKeeps(w, g, Overtaken); }
    else if kept { PlayingKeeps(w, g, mic, refused); }
    else { MovingKeeps(w, g, Asking); }
  }

  lemma AnsweredKeeps(w: World, g: nat, a: Answer, mic: bool, refused: Option<Player.Why>)
    requires Inv(w) && g in w.said && w.said[g].stage == Asking && MayRefuse(refused)
    ensures Inv(Answered(w, g, a, mic, refused))
  {
    if a == Refused || a == TimedOut { FallingBackKeeps(w, g); }
    else if g != w.page.gen { MovingKeeps(w, g, Overtaken); }
    else if a == NoAudio { FallingBackKeeps(w, g); }
    else { PlayingKeeps(w, g, mic, refused); }
  }

  /** The timer, and everything the other process does by itself. */
  lemma ElsewhereKeeps(w: World, e: Event)
    requires e.TimerFires? || e.Receives? || e.Sounds? || e.Level? || e.Finishes? || e.KeysDown? || e.KeysHeld?
    requires Inv(w) && Enabled(w, e)
    ensures Inv(Apply(w, e))
  {
    if e.Receives? { ReceivingLeaves(w, e.mute); }
    OutsideKeeps(w, Apply(w, e));
  }

  lemma StepKeeps(w: World, e: Event)
    requires Inv(w) && Enabled(w, e)
    ensures Inv(Apply(w, e))
  {
    match e
    case Says(offered) => SayKeeps(w, offered);
    case Hushes => HushingKeeps(w, Hush(w));
    case Warms(g, running, kept, mic, refused) => WarmedKeeps(w, g, running, kept, mic, refused);
    case Answers(g, a, mic, refused) => AnsweredKeeps(w, g, a, mic, refused);
    case Plays(p) => PlayKeeps(w, p);
    case Notices => NoticeKeeps(w);
    case _ => ElsewhereKeeps(w, e);
  }

  lemma {:induction false} InvAlways(es: seq<Event>)
    requires Possible(SILENT, es)
    ensures Inv(After(SILENT, es))
    decreases |es|
  {
    if es != [] {
      InvAlways(es[..|es| - 1]);
      StepKeeps(After(SILENT, es[..|es| - 1]), es[|es| - 1]);
    }
  }

  // ---- whose words are heard -------------------------------------------------------------------------------------

  /** Natural audio of anything but the newest utterance is over, whatever still arrives for it. */
  lemma OvertakenAudioIsOver(es: seq<Event>, i: nat)
    requires Possible(SILENT, es) && i < |After(SILENT, es).owner|
    requires After(SILENT, es).owner[i] != After(SILENT, es).page.gen
    ensures i < |After(SILENT, es).voice.plays| && After(SILENT, es).voice.plays[i].over
  {
    InvAlways(es);
  }

  /** No words are spoken twice: once at most by the computer voice, and then never heard from the natural one. */
  lemma OneVoiceEach(es: seq<Event>, g: nat)
    requires Possible(SILENT, es) && g in After(SILENT, es).said
    ensures After(SILENT, es).said[g].speaks <= 1
    ensures var w := After(SILENT, es); |w.owner| == |w.voice.plays|
    ensures var w := After(SILENT, es);
      w.said[g].speaks == 1 ==> forall i | 0 <= i < |w.owner| && w.owner[i] == g :: !w.voice.plays[i].started
  {
    InvAlways(es);
    assert Once(After(SILENT, es), g);
  }

  ghost predicate OpenFor(es: seq<Event>, g: nat) {
    exists k | 0 <= k < |es| ::
      (es[k].Warms? && es[k].g == g && es[k].mic) || (es[k].Answers? && es[k].g == g && es[k].mic)
  }

  lemma PlayDropsNothing(w: World, e: Player.Event, g: nat)
    requires Inv(w) && FromOutside(e) && Player.Enabled(w.voice, e) && !(g in w.said && w.said[g].stage == Dropped)
    ensures !(g in Play(w, e).said && Play(w, e).said[g].stage == Dropped)
  {
    var u := Player.Apply(w.voice, e);
    PlayedNotDropped(w.(voice := u), w.owner[e.i], e.i, NewCalls(w.voice, u, e.i), g);
  }

  lemma DroppedBy(w: World, e: Event, g: nat)
    requires Inv(w) && Enabled(w, e) && g in Apply(w, e).said && Apply(w, e).said[g].stage == Dropped
    requires !(g in w.said && w.said[g].stage == Dropped)
    ensures (e.Warms? && e.g == g && e.mic) || (e.Answers? && e.g == g && e.mic)
  {
    if e.Plays? { PlayDropsNothing(w, e.e, g); }
  }

  lemma {:induction false} PlayedNotDropped(w: World, o: nat, i: nat, cs: seq<Player.Callback>, g: nat)
    requires o in w.said && !(g in w.said && w.said[g].stage == Dropped)
    ensures !(g in Calls(w, o, i, cs).said && Calls(w, o, i, cs).said[g].stage == Dropped)
    decreases |cs|
  {
    if cs != [] { PlayedNotDropped(Call(w, o, i, cs[0]), o, i, cs[1..], g); }
  }

  /** Words are given up without a voice only when the microphone was open as their audio came. */
  lemma {:induction false} OnlyTheMicrophoneDrops(es: seq<Event>, g: nat)
    requires Possible(SILENT, es) && g in After(SILENT, es).said && After(SILENT, es).said[g].stage == Dropped
    ensures OpenFor(es, g)
    decreases |es|
  {
    if es != [] {
      var before := es[..|es| - 1];
      InvAlways(before);
      if g in After(SILENT, before).said && After(SILENT, before).said[g].stage == Dropped {
        OnlyTheMicrophoneDrops(before, g);
        var k :| 0 <= k < |before| && ((before[k].Warms? && before[k].g == g && before[k].mic)
                                       || (before[k].Answers? && before[k].g == g && before[k].mic));
        assert es[k] == before[k];
      } else {
        DroppedBy(After(SILENT, before), es[|es| - 1], g);
      }
    }
  }

  /**
   * What was said last and not overtaken reaches exactly one voice, unless the microphone was open when its audio came:
   * it is on its way with an answer still to come, or it was heard from the natural voice, or its words went to the
   * computer.
   */
  lemma NewestReachesOneVoice(es: seq<Event>)
    requires Possible(SILENT, es) && After(SILENT, es).page.gen in After(SILENT, es).said
    requires !OpenFor(es, After(SILENT, es).page.gen)
    ensures var w := After(SILENT, es); var u := w.said[w.page.gen];
      match u.stage
      case Warming => w.page.pending && u.speaks == 0
      case Asking => w.page.pending && u.speaks == 0
      case Playing(i) => u.speaks == 0 && i < |w.voice.plays| && !w.voice.plays[i].over
        && w.voice.plays[i].awaits != Player.Nothing
      case Heard(i) => u.speaks == 0 && i < |w.voice.plays| && w.voice.plays[i].started
      case ToComputer => u.speaks == 1
      case Dropped => false
      case Overtaken => false
  {
    InvAlways(es);
    var w := After(SILENT, es);
    assert Once(w, w.page.gen);
    if w.said[w.page.gen].stage == Dropped { OnlyTheMicrophoneDrops(es, w.page.gen); }
  }

  /** The two voices never speak together once the other process has read its line. */
  lemma NeverBothVoices(es: seq<Event>)
    requires Possible(SILENT, es) && After(SILENT, es).line == []
    ensures var w := After(SILENT, es); w.voice.current == None || w.computer == Quiet
  {
    InvAlways(es);
  }

  // ---- being silenced --------------------------------------------------------------------------------------------

  predicate NoSays(es: seq<Event>) { forall k | 0 <= k < |es| :: !es[k].Says? }

  /** Nothing more is heard unless something new is said, once the other process has read its line. */
  ghost predicate Silenced(w: World) {
    forall es | Possible(w, es) && NoSays(es) ::
      After(w, es).voice.current == None && (After(w, es).line == [] ==> After(w, es).computer == Quiet)
  }

  ghost predicate AtRest(w: World) {
    Inv(w) && !w.page.pending && !w.page.on && w.page.stop == None && LeftWith(w) == None
  }

  lemma RestThroughPlay(w: World, e: Player.Event)
    requires AtRest(w) && FromOutside(e) && Player.Enabled(w.voice, e)
    ensures AtRest(Play(w, e))
  {
    PlayKeeps(w, e);
    assert w.owner[e.i] in w.said && w.voice.plays[e.i].over;
    OverBringsNothing(w.voice, e);
  }

  lemma RestKeeps(w: World, e: Event)
    requires AtRest(w) && Enabled(w, e) && !e.Says?
    ensures AtRest(Apply(w, e))
  {
    if e.Plays? {
      RestThroughPlay(w, e.e);
    } else {
      StepKeeps(w, e);
      if e.Receives? { ReceivingLeaves(w, e.mute); }
    }
  }

  lemma {:induction false} RestLasts(w: World, es: seq<Event>)
    requires AtRest(w) && Possible(w, es) && NoSays(es)
    ensures AtRest(After(w, es))
    decreases |es|
  {
    if es != [] {
      RestLasts(w, es[..|es| - 1]);
      RestKeeps(After(w, es[..|es| - 1]), es[|es| - 1]);
    }
  }

  lemma {:induction false} Prepend(w: World, e: Event, es: seq<Event>)
    requires Enabled(w, e) && Possible(Apply(w, e), es)
    ensures Possible(w, [e] + es) && After(w, [e] + es) == After(Apply(w, e), es)
    decreases |es|
  {
    var all := [e] + es;
    if es == [] {
      assert all == [e] && all[..0] == [] && all[|all| - 1] == e;
      assert Possible(w, all[..0]) && After(w, all[..0]) == w;
    } else {
      var front, last := es[..|es| - 1], es[|es| - 1];
      Prepend(w, e, front);
      assert all[..|all| - 1] == [e] + front && all[|all| - 1] == last;
      assert After(Apply(w, e), es) == Apply(After(Apply(w, e), front), last);
    }
  }

  lemma {:induction false} StillSounds(w: World, g: nat) returns (es: seq<Event>)
    requires LeftWith(w) == Some(g)
    ensures Possible(w, es) && NoSays(es) && After(w, es).line == [] && After(w, es).computer == Sounding(g)
    decreases |w.line|
  {
    if w.line != [] {
      var rest := w.line[1..];
      assert rest != [] ==> rest[|rest| - 1] == w.line[|w.line| - 1];
      var later := StillSounds(Receive(w, false), g);
      Prepend(w, Receives(false), later);
      es := [Receives(false)] + later;
    } else if w.computer.Rendering? {
      assert Possible(Apply(w, Sounds), []);
      Prepend(w, Sounds, []);
      es := [Sounds] + [];
    } else {
      es := [];
    }
  }

  /**
   * A hush silences her for good, also what was still on its way, exactly when she is known to be speaking or about to,
   * or the computer voice was left with nothing. It is not enough otherwise: past its 12 seconds a speech being
   * rendered is forgotten by the page, and no stop is sent for it.
   */
  lemma HushSilencesIff(w: World)
    requires Inv(w)
    ensures Silenced(Hush(w)) <==> Aloud(w.page) || LeftWith(w) == None
  {
    var x := Hush(w);
    HushingKeeps(w, x);
    if Aloud(w.page) || LeftWith(w) == None {
      forall es | Possible(x, es) && NoSays(es)
        ensures After(x, es).voice.current == None && (After(x, es).line == [] ==> After(x, es).computer == Quiet)
      {
        RestLasts(x, es);
      }
    } else {
      var es := StillSounds(x, LeftWith(x).value);
    }
  }

  /** Asked for, rendered for longer than 12 seconds, hushed, and heard all the same. */
  lemma HushedTooLate()
    ensures var es := [Says(false), Receives(false), TimerFires, Hushes, Sounds];
      Possible(SILENT, es) && After(SILENT, es).computer == Sounding(1) && After(SILENT, es).page.gen == 2
  {
    var w := Apply(SILENT, Says(false));
    assert w.line == [Speak(1)];
    var v := Apply(w, Receives(false));
    assert v.computer == Rendering(1);
    var u := Apply(v, TimerFires);
    var t := Apply(u, Hushes);
    assert t.computer == Rendering(1);
    var none: seq<Event> := [];
    assert Possible(Apply(t, Sounds), none);
    Prepend(t, Sounds, none);
    Prepend(u, Hushes, [Sounds] + none);
    Prepend(v, TimerFires, [Hushes] + ([Sounds] + none));
    Prepend(w, Receives(false), [TimerFires] + ([Hushes] + ([Sounds] + none)));
    Prepend(SILENT, Says(false), [Receives(false)] + ([TimerFires] + ([Hushes] + ([Sounds] + none))));
    assert [Says(false), Receives(false), TimerFires, Hushes, Sounds]
        == [Says(false)] + ([Receives(false)] + ([TimerFires] + ([Hushes] + ([Sounds] + none))));
  }

  predicate InTime(w: World, e: Event) { e.Hushes? ==> Aloud(w.page) || LeftWith(w) == None }

  predicate AllInTime(es: seq<Event>)
    requires Possible(SILENT, es)
    decreases |es|
  {
    es == [] || (AllInTime(es[..|es| - 1]) && InTime(After(SILENT, es[..|es| - 1]), es[|es| - 1]))
  }

  /** The computer voice was left with nothing, or with what was said last. */
  predicate LeftWithNewest(w: World) { LeftWith(w) in {None, Some(w.page.gen)} }

  lemma PlayLeaves(w: World, e: Player.Event)
    requires Inv(w) && FromOutside(e) && Player.Enabled(w.voice, e) && LeftWithNewest(w)
    ensures LeftWithNewest(Play(w, e))
  {
    var u := Player.Apply(w.voice, e);
    CallsLeave(w.(voice := u), w.owner[e.i], e.i, NewCalls(w.voice, u, e.i));
  }

  lemma OnlyNewestIsLeft(w: World, e: Event)
    requires Inv(w) && Enabled(w, e) && LeftWithNewest(w)
    ensures LeftWithNewest(Apply(w, e)) <==> InTime(w, e)
  {
    match e
    case Receives(mute) => ReceivingLeaves(w, mute);
    case Plays(p) => PlayLeaves(w, p);
    case _ =>
  }

  lemma {:induction false} CallsLeave(w: World, o: nat, i: nat, cs: seq<Player.Callback>)
    requires o in w.said && LeftWithNewest(w)
    ensures var x := Calls(w, o, i, cs); x.page.gen == w.page.gen && LeftWithNewest(x)
    decreases |cs|
  {
    if cs != [] { CallsLeave(Call(w, o, i, cs[0]), o, i, cs[1..]); }
  }

  /** At every moment of the run (each of its beginnings is one). */
  ghost predicate AlwaysNewest(es: seq<Event>) {
    forall n | 0 <= n <= |es| && Possible(SILENT, es[..n]) :: LeftWithNewest(After(SILENT, es[..n]))
  }

  lemma NewestOneMore(es: seq<Event>)
    requires es != [] && Possible(SILENT, es)
    ensures AlwaysNewest(es) <==> AlwaysNewest(es[..|es| - 1]) && LeftWithNewest(After(SILENT, es))
  {
    var n := |es|;
    var front := es[..n - 1];
    assert es[..n] == es && forall i | 0 <= i < n :: front[..i] == es[..i];
    if AlwaysNewest(es) {
      assert LeftWithNewest(After(SILENT, es[..n]));
      assert forall i | 0 <= i < n && Possible(SILENT, front[..i]) :: LeftWithNewest(After(SILENT, es[..i]));
    }
    if AlwaysNewest(front) && LeftWithNewest(After(SILENT, es)) {
      forall i | 0 <= i <= n && Possible(SILENT, es[..i])
        ensures LeftWithNewest(After(SILENT, es[..i]))
      {
        if i < n { assert LeftWithNewest(After(SILENT, front[..i])); }
      }
    }
  }

  /** The computer voice is never left with older words than what was said last exactly when every hush is in time. */
  lemma {:induction false} ComputerSaysTheNewestIff(es: seq<Event>)
    requires Possible(SILENT, es)
    ensures AlwaysNewest(es) <==> AllInTime(es)
    decreases |es|
  {
    if es == [] {
      assert es[..0] == es;
    } else {
      var front := es[..|es| - 1];
      ComputerSaysTheNewestIff(front);
      NewestOneMore(es);
      InvAlways(front);
      if AlwaysNewest(front) {
        assert front[..|front|] == front;
        OnlyNewestIsLeft(After(SILENT, front), es[|es| - 1]);
      }
    }
  }

  /** A newer answer always replaces the last, in either voice and also one a late hush had left behind. */
  lemma SayingReplaces(w: World, offered: bool)
    requires Inv(w)
    ensures var x := Say(w, offered);
      x.voice.current == None && x.page.gen == w.page.gen + 1
      && LeftWith(x) == (if offered then None else Some(x.page.gen))
  {
    StoppingStops(w);
  }

  // ---- the page --------------------------------------------------------------------------------------------------

  class Notch {
    var gen: nat
    var pending: bool
    var on: bool
    var stop: Option<nat>
    var talking: bool
    var waiting: bool
    var timer: bool
    var ending: bool
    var line: seq<Command>
    const voice: Player.NaturalVoice

    function Now(): Page
      reads this
    {
      Page(gen, pending, on, stop, talking, waiting, timer, ending)
    }

    ghost predicate Fits()
      reads this, voice
    {
      Player.Inv(voice.Now()) && (stop.Some? ==> stop.value < |voice.plays|)
    }

    constructor ()
      ensures Now() == SILENT.page && line == [] && voice.Now() == Player.START && Fits() && fresh(voice)
    {
      gen, pending, on, stop := 0, false, false, None;
      talking, waiting, timer, ending := false, false, false, false;
      line := [];
      voice := new Player.NaturalVoice();
    }

    method StopsNatural()
      requires Fits()
      modifies this, voice
      ensures Now() == StopNatural(old(Now())) && line == old(line) && Fits()
      ensures voice.Now() == StopPlaying(old(voice.Now()), old(Now()))
    {
      gen := gen + 1;
      pending := false;
      var playing := stop;
      stop := None;
      if playing.Some? { voice.Halt(playing.value); }
      if on {
        on := false;
        ending := true;
      }
    }

    method Settles()
      modifies this`talking, this`ending
      ensures Now() == Settle(old(Now()))
    {
      if ending { talking, ending := false, false; }
    }

    method SayAloud(offered: bool)
      requires Fits()
      modifies this, voice
      ensures Now() == SayPage(old(Now()), offered) && Fits()
      ensures voice.Now() == StopPlaying(old(voice.Now()), old(Now()))
      ensures line == old(line) + [if offered then Halt else Speak(gen)]
    {
      StopsNatural();
      waiting := true;
      timer := true;
      if offered {
        pending := true;
        if talking { talking := false; }
        line := line + [Halt];
      } else {
        line := line + [Speak(gen)];
      }
      Settles();
    }

    method HushNow()
      requires Fits()
      modifies this, voice
      ensures Now() == HushPage(old(Now())) && Fits()
      ensures voice.Now() == StopPlaying(old(voice.Now()), old(Now()))
      ensures line == if Aloud(old(Now())) then old(line) + [Halt] else old(line)
    {
      timer := false;
      StopsNatural();
      if talking || waiting {
        waiting := false;
        line := line + [Halt];
      }
      Settles();
    }

    method Hear(n: Notice)
      requires Fits()
      modifies this, voice
      ensures Now() == HearPage(old(Now()), n) && line == old(line) && Fits()
      ensures voice.Now() ==
        if n.Listening? && (old(pending) || old(on)) then StopPlaying(old(voice.Now()), old(Now()))
        else old(voice.Now())
    {
      if n == Listening && (pending || on) {
        StopsNatural();
        waiting, timer := false, false;
      }
      if n != Listening && (pending || on) { return; }
      if n == SpeakingNow {
        if !talking { talking, waiting, timer := true, false, false; }
        return;
      }
      if n == Unspoken || (n == Listening && waiting && !talking) {
        if !talking && waiting { waiting, timer := false, false; }
        if n == Unspoken { return; }
      }
      if n == Spoken { talking := false; return; }
      Settles();
    }

    /** The computer voice says utterance `g` instead, unless something newer is said or she was hushed. */
    method FallBack(g: nat)
      modifies this
      ensures Now() == (if g == old(gen) then FallbackPage(old(Now())) else old(Now()))
      ensures line == if g == old(gen) then old(line) + [Speak(g)] else old(line)
    {
      if g != gen { return; }
      pending := false;
      stop := None;
      timer := true;
      line := line + [Speak(g)];
    }
  }
}
