/**
 * The natural voice's player: one utterance at a time, each behind a chain of promises, with four callbacks to whoever
 * asked for it. Anything already promised still comes after an utterance is over, so every answer is looked at again
 * when it comes.
 */
module Player {
  import opened Options

  datatype Why = BadAudio | Suspended | Unsupported | Broke

  datatype Callback = OnStart | OnLevel(level: real) | OnEnd | OnFail(why: Why)

  /** What an utterance hears from next: a queued task, the context, the decoder, its own sound, or nothing more. */
  datatype Await = Task(why: Why) | Context | Decoder | Sound | Nothing

  /** `stopped`: it is over because of `stop()`, not by itself. `log`: its callbacks so far. */
  datatype Play = Play(over: bool, started: bool, stopped: bool, awaits: Await, log: seq<Callback>)

  datatype State = State(plays: seq<Play>, current: Option<nat>)

  const START := State([], None)

  /** How decoding went: audio, audio of no length, nothing readable, or a step after it that threw. */
  datatype Decoding = Audio | Empty | Unreadable | ThrewUnheard | ThrewHeard

  datatype Event =
    | Begin(refused: Option<Why>)
    | Stop(i: nat)
    | TaskRuns(i: nat)
    | Warmed(i: nat, running: bool)
    | Decoded(i: nat, how: Decoding)
    | Frame(i: nat, level: real)
    | SoundEnds(i: nat)

  // ---- the closures of one utterance -----------------------------------------------------------------------------

  function Closed(v: State, i: nat, stopped: bool, callbacks: seq<Callback>): State
    requires i < |v.plays|
  {
    var p := v.plays[i];
    State(v.plays[i := p.(over := true, stopped := stopped, log := p.log + callbacks)],
          if v.current == Some(i) then None else v.current)
  }

  function Stopped(v: State, i: nat): State
    requires i < |v.plays|
  {
    if v.plays[i].over then v else Closed(v, i, true, [])
  }

  /** Something went wrong: its asker is told an end or a reason, by whether there was any sound. */
  function Failed(v: State, i: nat, why: Why): State
    requires i < |v.plays|
  {
    if v.plays[i].over then v else Closed(v, i, false, [if v.plays[i].started then OnEnd else OnFail(why)])
  }

  function Ended(v: State, i: nat): State
    requires i < |v.plays|
  {
    if v.plays[i].over then v else Closed(v, i, false, [OnEnd])
  }

  function StoppedCurrent(v: State): State {
    if v.current.Some? && v.current.value < |v.plays| then Stopped(v, v.current.value) else v
  }

  function Began(v: State, refused: Option<Why>): State {
    var w := StoppedCurrent(v);
    var p := Play(false, false, false, if refused.Some? then Task(refused.value) else Context, []);
    State(w.plays + [p], Some(|w.plays|))
  }

  function Awaiting(v: State, i: nat, a: Await): State
    requires i < |v.plays|
  {
    v.(plays := v.plays[i := v.plays[i].(awaits := a)])
  }

  function Started(v: State, i: nat): State
    requires i < |v.plays|
  {
    v.(plays := v.plays[i := v.plays[i].(started := true, awaits := Sound, log := v.plays[i].log + [OnStart])])
  }

  function AfterDecoding(v: State, i: nat, how: Decoding): State
    requires i < |v.plays|
  {
    if v.plays[i].over then v
    else match how
      case Audio => Started(v, i)
      case ThrewHeard => Failed(Started(v, i), i, Broke)
      case ThrewUnheard => Failed(v, i, Broke)
      case Empty => Failed(v, i, BadAudio)
      case Unreadable => Failed(v, i, BadAudio)
  }

  predicate Enabled(v: State, e: Event) {
    match e
    case Begin(refused) => refused.Some? ==> refused.value.BadAudio? || refused.value.Unsupported?
    case Stop(i) => i < |v.plays|
    case TaskRuns(i) => i < |v.plays| && v.plays[i].awaits.Task?
    case Warmed(i, _) => i < |v.plays| && v.plays[i].awaits == Context
    case Decoded(i, _) => i < |v.plays| && v.plays[i].awaits == Decoder
    case Frame(i, _) => i < |v.plays| && v.plays[i].awaits == Sound
    case SoundEnds(i) => i < |v.plays| && v.plays[i].awaits == Sound
  }

  function Apply(v: State, e: Event): State
    requires Enabled(v, e)
  {
    match e
    case Begin(refused) => Began(v, refused)
    case Stop(i) => Stopped(v, i)
    case TaskRuns(i) => Failed(Awaiting(v, i, Nothing), i, v.plays[i].awaits.why)
    case Warmed(i, running) =>
      if v.plays[i].over then Awaiting(v, i, Nothing)
      else if !running then Failed(Awaiting(v, i, Nothing), i, Suspended)
      else Awaiting(v, i, Decoder)
    case Decoded(i, how) => AfterDecoding(Awaiting(v, i, Nothing), i, how)
    case Frame(i, level) =>
      if v.plays[i].over then v
      else v.(plays := v.plays[i := v.plays[i].(log := v.plays[i].log + [OnLevel(level)])])
    case SoundEnds(i) => Ended(Awaiting(v, i, Nothing), i)
  }

  predicate Possible(v: State, es: seq<Event>)
    decreases |es|, 0
  {
    es == [] || (Possible(v, es[..|es| - 1]) && Enabled(After(v, es[..|es| - 1]), es[|es| - 1]))
  }

  function After(v: State, es: seq<Event>): State
    requires Possible(v, es)
    decreases |es|, 1
  {
    if es == [] then v else Apply(After(v, es[..|es| - 1]), es[|es| - 1])
  }

  // ---- what every order of events keeps --------------------------------------------------------------------------

  ghost predicate OnlyLevels(log: seq<Callback>) { forall k | 0 <= k < |log| :: log[k].OnLevel? }

  /** Nothing, or one failure, or a start, levels and, unless it was stopped or still plays, one end. */
  ghost predicate Told(p: Play) {
    if !p.started then
      if p.over && !p.stopped then |p.log| == 1 && p.log[0].OnFail? else p.log == []
    else if p.over && !p.stopped then
      |p.log| >= 2 && p.log[0] == OnStart && p.log[|p.log| - 1] == OnEnd && OnlyLevels(p.log[1..|p.log| - 1])
    else
      |p.log| >= 1 && p.log[0] == OnStart && OnlyLevels(p.log[1..])
  }

  /**
   * An utterance that is not over always has something coming; one that has not sounded is not yet promised a frame.
   */
  ghost predicate Sane(p: Play) {
    && Told(p)
    && (p.stopped ==> p.over)
    && (!p.over ==> p.awaits != Nothing)
    && (!p.over ==> (p.started <==> p.awaits == Sound))
  }

  ghost predicate Inv(v: State) {
    && (v.current.Some? ==> v.current.value < |v.plays|)
    && (forall i | 0 <= i < |v.plays| :: Sane(v.plays[i]) && (!v.plays[i].over <==> v.current == Some(i)))
  }

  lemma ClosedKeeps(v: State, i: nat, stopped: bool, callbacks: seq<Callback>)
    requires i < |v.plays| && !v.plays[i].over && Told(v.plays[i])
    requires v.current == Some(i)
    requires forall k | 0 <= k < |v.plays| && k != i :: Sane(v.plays[k]) && v.plays[k].over
    requires stopped ==> callbacks == []
    requires !stopped ==> |callbacks| == 1
    requires !stopped ==> if v.plays[i].started then callbacks[0] == OnEnd else callbacks[0].OnFail?
    ensures Inv(Closed(v, i, stopped, callbacks))
  {
    var p := v.plays[i];
    var q := Closed(v, i, stopped, callbacks).plays[i];
    if p.started && !stopped {
      assert q.log[1..|q.log| - 1] == p.log[1..];
    }
    assert Told(q);
  }

  lemma OnlyOthersOver(v: State, i: nat)
    requires Inv(v) && i < |v.plays| && !v.plays[i].over
    ensures v.current == Some(i)
    ensures forall k | 0 <= k < |v.plays| && k != i :: Sane(v.plays[k]) && v.plays[k].over
  {
  }

  lemma StoppingKeeps(v: State, i: nat)
    requires Inv(v) && i < |v.plays|
    ensures Inv(Stopped(v, i))
  {
    if !v.plays[i].over {
      ClosedKeeps(v, i, true, []);
    }
  }

  lemma StartingKeeps(v: State, i: nat)
    requires Inv(v) && i < |v.plays| && !v.plays[i].over && !v.plays[i].started
    ensures Inv(Started(v, i))
  {
    assert Started(v, i).plays[i].log == [OnStart];
  }

  lemma DecodingKeeps(v: State, i: nat, how: Decoding)
    requires Enabled(v, Decoded(i, how)) && Inv(v)
    ensures Inv(Apply(v, Decoded(i, how)))
  {
    var w := Awaiting(v, i, Nothing);
    if !v.plays[i].over {
      OnlyOthersOver(v, i);
      match how
      case Audio => assert Started(w, i) == Started(v, i); StartingKeeps(v, i);
      case ThrewHeard =>
        assert Started(w, i) == Started(v, i);
        StartingKeeps(v, i);
        ClosedKeeps(Started(v, i), i, false, [OnEnd]);
      case ThrewUnheard => ClosedKeeps(w, i, false, [OnFail(Broke)]);
      case Empty => ClosedKeeps(w, i, false, [OnFail(BadAudio)]);
      case Unreadable => ClosedKeeps(w, i, false, [OnFail(BadAudio)]);
    }
  }

  lemma EndingKeeps(v: State, e: Event)
    requires e.TaskRuns? || e.SoundEnds? || e.Warmed?
    requires Enabled(v, e) && Inv(v)
    ensures Inv(Apply(v, e))
  {
    var i := e.i;
    var w := Awaiting(v, i, Nothing);
    if !v.plays[i].over {
      OnlyOthersOver(v, i);
      match e
      case TaskRuns(_) => ClosedKeeps(w, i, false, [OnFail(v.plays[i].awaits.why)]);
      case SoundEnds(_) => ClosedKeeps(w, i, false, [OnEnd]);
      case Warmed(_, running) => if !running { ClosedKeeps(w, i, false, [OnFail(Suspended)]); }
    }
  }

  lemma FrameKeeps(v: State, i: nat, level: real)
    requires Enabled(v, Frame(i, level)) && Inv(v)
    ensures Inv(Apply(v, Frame(i, level)))
  {
    var p, q := v.plays[i], Apply(v, Frame(i, level)).plays[i];
    if !p.over {
      assert q.log[1..] == p.log[1..] + [OnLevel(level)];
    }
  }

  lemma StepKeeps(v: State, e: Event)
    requires Enabled(v, e) && Inv(v)
    ensures Inv(Apply(v, e))
  {
    match e
    case Begin(_) => if v.current.Some? { StoppingKeeps(v, v.current.value); }
    case Stop(i) => StoppingKeeps(v, i);
    case Decoded(i, how) => DecodingKeeps(v, i, how);
    case Frame(i, level) => FrameKeeps(v, i, level);
    case _ => EndingKeeps(v, e);
  }

  /**
   * In every order of events: each utterance has told its story as `Told` says, one at most is not over, and that one
   * is `current` and still has something coming.
   */
  lemma {:induction false} InvAlways(es: seq<Event>)
    requires Possible(START, es)
    ensures Inv(After(START, es))
    decreases |es|
  {
    if es != [] {
      InvAlways(es[..|es| - 1]);
      StepKeeps(After(START, es[..|es| - 1]), es[|es| - 1]);
    }
  }

  lemma StaysOver(v: State, e: Event, i: nat)
    requires Enabled(v, e) && i < |v.plays| && v.plays[i].over
    ensures i < |Apply(v, e).plays| && Apply(v, e).plays[i].over && Apply(v, e).plays[i].log == v.plays[i].log
  {
  }

  /** Whatever was promised and still comes: an utterance that is over says nothing more. */
  lemma {:induction false} NothingFollows(v: State, es: seq<Event>, i: nat)
    requires Possible(v, es) && i < |v.plays| && v.plays[i].over
    ensures i < |After(v, es).plays|
    ensures After(v, es).plays[i].over && After(v, es).plays[i].log == v.plays[i].log
    decreases |es|
  {
    if es != [] {
      NothingFollows(v, es[..|es| - 1], i);
      StaysOver(After(v, es[..|es| - 1]), es[|es| - 1], i);
    }
  }

  /** Stopping is silent, final, and leaves every other utterance as it was; so does beginning the next one. */
  lemma StopIsSilent(v: State, i: nat, es: seq<Event>)
    requires Inv(v) && i < |v.plays| && Possible(Apply(v, Stop(i)), es)
    ensures var u := After(Apply(v, Stop(i)), es);
      i < |u.plays| && u.plays[i].over && u.plays[i].log == v.plays[i].log
    ensures forall k | 0 <= k < |v.plays| && k != i :: Apply(v, Stop(i)).plays[k] == v.plays[k]
  {
    NothingFollows(Apply(v, Stop(i)), es, i);
  }

  lemma BeginningStopsTheLast(v: State, refused: Option<Why>, es: seq<Event>, i: nat)
    requires Inv(v) && i < |v.plays| && Enabled(v, Begin(refused)) && Possible(Apply(v, Begin(refused)), es)
    ensures var u := After(Apply(v, Begin(refused)), es);
      i < |u.plays| && u.plays[i].over && u.plays[i].log == v.plays[i].log
    ensures var u := Apply(v, Begin(refused));
      |u.plays| == |v.plays| + 1 && u.current == Some(|v.plays|) && !u.plays[|v.plays|].over
        && u.plays[|v.plays|].log == []
  {
    assert Apply(v, Begin(refused)).plays[i].over;
    NothingFollows(Apply(v, Begin(refused)), es, i);
  }

  /**
   * An utterance nobody stopped, when nothing more is coming for it: it failed once unheard, or was heard from start to
   * end.
   */
  lemma EveryUtteranceEnds(es: seq<Event>, i: nat)
    requires Possible(START, es) && i < |After(START, es).plays|
    requires var p := After(START, es).plays[i]; p.awaits == Nothing && !p.stopped
    ensures var log := After(START, es).plays[i].log;
      || (|log| == 1 && log[0].OnFail?)
      || (|log| >= 2 && log[0] == OnStart && log[|log| - 1] == OnEnd && OnlyLevels(log[1..|log| - 1]))
  {
    InvAlways(es);
  }

  // ---- why ---------------------------------------------------------------------------------------------------------

  /**
   * What makes an utterance fail for a reason: what was queued for it, a context that would not run, no audio, or a
   * step that threw.
   */
  predicate Explains(v: State, e: Event, i: nat, why: Why) {
    match e
    case TaskRuns(k) => k == i && i < |v.plays| && v.plays[i].awaits == Task(why)
    case Warmed(k, running) => k == i && !running && why == Suspended
    case Decoded(k, how) => k == i
      && (((how == Empty || how == Unreadable) && why == BadAudio) || (how == ThrewUnheard && why == Broke))
    case _ => false
  }

  /** Audio was decoded for it. */
  predicate GivesSound(e: Event, i: nat) { e == Decoded(i, Audio) || e == Decoded(i, ThrewHeard) }

  lemma StepExplains(v: State, e: Event, i: nat)
    requires Inv(v) && Enabled(v, e) && i < |Apply(v, e).plays|
    ensures var p := Apply(v, e).plays[i];
      && (p.started && (i < |v.plays| ==> !v.plays[i].started) ==> GivesSound(e, i))
      && (p.log != [] && p.log[0].OnFail? && (i < |v.plays| ==> v.plays[i].log == []) ==>
        Explains(v, e, i, p.log[0].why))
      && (i < |v.plays| && v.plays[i].log != [] ==> p.log != [] && p.log[0] == v.plays[i].log[0])
  {
    StepKeeps(v, e);
  }

  /**
   * In every run: an utterance is heard only when its audio was decoded, and a failure is told for the reason there
   * was.
   */
  lemma {:induction false} EveryCallbackHasItsReason(es: seq<Event>, i: nat)
    requires Possible(START, es) && i < |After(START, es).plays|
    ensures After(START, es).plays[i].started ==> exists k | 0 <= k < |es| :: GivesSound(es[k], i)
    ensures var log := After(START, es).plays[i].log;
      log != [] && log[0].OnFail? ==>
        exists k | 0 <= k < |es| :: Possible(START, es[..k]) && Explains(After(START, es[..k]), es[k], i, log[0].why)
    decreases |es|
  {
    if es != [] {
      var before, e := es[..|es| - 1], es[|es| - 1];
      var v, p := After(START, before), After(START, es).plays[i];
      InvAlways(before);
      StepExplains(v, e, i);
      if i < |v.plays| && (v.plays[i].started || v.plays[i].log != []) {
        EveryCallbackHasItsReason(before, i);
        if v.plays[i].started {
          var k :| 0 <= k < |before| && GivesSound(before[k], i);
          assert GivesSound(es[k], i);
        } else {
          assert Sane(v.plays[i]);
          var k :| 0 <= k < |before| && Possible(START, before[..k])
            && Explains(After(START, before[..k]), before[k], i, v.plays[i].log[0].why);
          assert es[..k] == before[..k] && es[k] == before[k];
        }
      }
    }
  }

  /** And each answer is told: what it brings an utterance that is not over, and whether that ends it. */
  lemma EachAnswerIsTold(v: State, e: Event)
    requires Inv(v) && Enabled(v, e) && !e.Begin? && !e.Stop? && !v.plays[e.i].over
    ensures var p, q := v.plays[e.i], Apply(v, e).plays[e.i];
      match e
      case TaskRuns(_) => q.over && q.log == [OnFail(p.awaits.why)]
      case Warmed(_, running) => q.over != running && q.log == (if running then [] else [OnFail(Suspended)])
      case Decoded(_, how) =>
        && (q.over <==> how != Audio)
        && q.log == (match how
                     case Audio => [OnStart]
                     case ThrewHeard => [OnStart, OnEnd]
                     case ThrewUnheard => [OnFail(Broke)]
                     case Empty => [OnFail(BadAudio)]
                     case Unreadable => [OnFail(BadAudio)])
      case Frame(_, level) => !q.over && q.log == p.log + [OnLevel(level)]
      case SoundEnds(_) => q.over && q.log == p.log + [OnEnd]
    ensures !Apply(v, e).plays[e.i].stopped
  {
    StepKeeps(v, e);
  }

  // ---- how loud it is --------------------------------------------------------------------------------------------

  /** The levels told. */
  function Levels(log: seq<Callback>): seq<real> {
    if log == [] then []
    else
      var before, last := Levels(log[..|log| - 1]), log[|log| - 1];
      if last.OnLevel? then before + [last.level] else before
  }

  /** The levels of the sound's frames. */
  function Frames(es: seq<Event>, i: nat): seq<real> {
    if es == [] then []
    else
      var before, last := Frames(es[..|es| - 1], i), es[|es| - 1];
      if last.Frame? && last.i == i then before + [last.level] else before
  }

  lemma LevelsOnto(log: seq<Callback>, c: Callback)
    ensures Levels(log + [c]) == if c.OnLevel? then Levels(log) + [c.level] else Levels(log)
  {
    assert (log + [c])[..|log|] == log;
  }

  lemma StepTells(v: State, e: Event, i: nat)
    requires Enabled(v, e) && i < |v.plays|
    ensures Levels(Apply(v, e).plays[i].log) ==
      if e.Frame? && e.i == i && !v.plays[i].over then Levels(v.plays[i].log) + [e.level] else Levels(v.plays[i].log)
  {
    var log := v.plays[i].log;
    assert log + [] == log;
    LevelsOnto(log, OnEnd);
    LevelsOnto(log, OnStart);
    LevelsOnto(log + [OnStart], OnEnd);
    LevelsOnto(log, OnFail(BadAudio));
    LevelsOnto(log, OnFail(Suspended));
    LevelsOnto(log, OnFail(Broke));
    if e.TaskRuns? && e.i == i { LevelsOnto(log, OnFail(v.plays[i].awaits.why)); }
    if e.Frame? { LevelsOnto(log, OnLevel(e.level)); }
  }

  lemma {:induction false} NoFramesYet(es: seq<Event>, i: nat)
    requires Possible(START, es) && i >= |After(START, es).plays|
    ensures Frames(es, i) == []
    decreases |es|
  {
    if es != [] { NoFramesYet(es[..|es| - 1], i); }
  }

  /**
   * In every run the levels told are those of the utterance's own frames, in order: all of them while it is not over.
   */
  lemma {:induction false} LevelsAreItsFrames(es: seq<Event>, i: nat)
    requires Possible(START, es) && i < |After(START, es).plays|
    ensures Levels(After(START, es).plays[i].log) <= Frames(es, i)
    ensures !After(START, es).plays[i].over ==> Levels(After(START, es).plays[i].log) == Frames(es, i)
    decreases |es|
  {
    var before, e := es[..|es| - 1], es[|es| - 1];
    var v := After(START, before);
    if i < |v.plays| {
      LevelsAreItsFrames(before, i);
      StepTells(v, e, i);
      if v.plays[i].over { StaysOver(v, e, i); }
    } else {
      NoFramesYet(before, i);
    }
  }

  // ---- the player ------------------------------------------------------------------------------------------------

  class NaturalVoice {
    var plays: seq<Play>
    var current: Option<nat>

    function Now(): State
      reads this
    {
      State(plays, current)
    }

    constructor ()
      ensures Now() == START && Inv(Now())
    {
      plays, current := [], None;
    }

    method Cleanup(i: nat)
      requires i < |plays|
      modifies this`current
      ensures current == if old(current) == Some(i) then None else old(current)
    {
      if current == Some(i) { current := None; }
    }

    method Halt(i: nat)
      requires Inv(Now()) && i < |plays|
      modifies this
      ensures Now() == Apply(old(Now()), Stop(i)) && Inv(Now())
    {
      StepKeeps(Now(), Stop(i));
      if plays[i].over { return; }
      assert plays[i].log == plays[i].log + [];
      plays := plays[i := plays[i].(over := true, stopped := true)];
      Cleanup(i);
    }

    method Fail(i: nat, why: Why)
      requires i < |plays|
      modifies this
      ensures Now() == Failed(old(Now()), i, why)
    {
      if plays[i].over { return; }
      plays := plays[i := plays[i].(over := true, stopped := false)];
      Cleanup(i);
      if plays[i].started {
        plays := plays[i := plays[i].(log := plays[i].log + [OnEnd])];
      } else {
        plays := plays[i := plays[i].(log := plays[i].log + [OnFail(why)])];
      }
    }

    method Begins(refused: Option<Why>) returns (i: nat)
      requires Inv(Now()) && Enabled(Now(), Begin(refused))
      modifies this
      ensures Now() == Apply(old(Now()), Begin(refused)) && Inv(Now())
      ensures i == |old(plays)| && current == Some(i) && !plays[i].over && plays[i].log == []
    {
      StepKeeps(Now(), Begin(refused));
      if current.Some? { Halt(current.value); }
      i := |plays|;
      plays := plays + [Play(false, false, false, if refused.Some? then Task(refused.value) else Context, [])];
      current := Some(i);
    }

    method RunTask(i: nat)
      requires Inv(Now()) && Enabled(Now(), TaskRuns(i))
      modifies this
      ensures Now() == Apply(old(Now()), TaskRuns(i)) && Inv(Now())
    {
      StepKeeps(Now(), TaskRuns(i));
      var why := plays[i].awaits.why;
      plays := plays[i := plays[i].(awaits := Nothing)];
      Fail(i, why);
    }

    method Warm(i: nat, running: bool)
      requires Inv(Now()) && Enabled(Now(), Warmed(i, running))
      modifies this
      ensures Now() == Apply(old(Now()), Warmed(i, running)) && Inv(Now())
    {
      StepKeeps(Now(), Warmed(i, running));
      plays := plays[i := plays[i].(awaits := Nothing)];
      if plays[i].over { return; }
      if !running { Fail(i, Suspended); return; }
      plays := plays[i := plays[i].(awaits := Decoder)];
    }

    method Decode(i: nat, how: Decoding)
      requires Inv(Now()) && Enabled(Now(), Decoded(i, how))
      modifies this
      ensures Now() == Apply(old(Now()), Decoded(i, how)) && Inv(Now())
    {
      StepKeeps(Now(), Decoded(i, how));
      plays := plays[i := plays[i].(awaits := Nothing)];
      if plays[i].over { return; }
      if how == Empty || how == Unreadable { Fail(i, BadAudio); return; }
      if how == ThrewUnheard { Fail(i, Broke); return; }
      plays := plays[i := plays[i].(started := true, awaits := Sound, log := plays[i].log + [OnStart])];
      if how == ThrewHeard { Fail(i, Broke); }
    }

    method Step(i: nat, level: real)
      requires Inv(Now()) && Enabled(Now(), Frame(i, level))
      modifies this
      ensures Now() == Apply(old(Now()), Frame(i, level)) && Inv(Now())
    {
      StepKeeps(Now(), Frame(i, level));
      if plays[i].over { return; }
      plays := plays[i := plays[i].(log := plays[i].log + [OnLevel(level)])];
    }

    method Ends(i: nat)
      requires Inv(Now()) && Enabled(Now(), SoundEnds(i))
      modifies this
      ensures Now() == Apply(old(Now()), SoundEnds(i)) && Inv(Now())
    {
      StepKeeps(Now(), SoundEnds(i));
      plays := plays[i := plays[i].(awaits := Nothing)];
      if plays[i].over { return; }
      plays := plays[i := plays[i].(over := true, stopped := false, log := plays[i].log + [OnEnd])];
      Cleanup(i);
    }
  }
}
