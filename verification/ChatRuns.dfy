/** Whole runs of saves: what they promise, when, and the run that breaks it. */
module ChatRuns {
  import opened Options
  import opened ChatSaving
  import opened ChatSafety
  import opened ChatHarm

  /** A run of a new conversation, against a server that may hold anything already. */
  ghost predicate IsRun(ss: seq<State>, es: seq<Event>) {
    && |ss| == |es| + 1
    && ss[0].messages == [] && ss[0].chat == NEW_CHAT && ss[0].phase == Idle && ss[0].line == [] && ss[0].taken == []
    && ss[0].skipped == [] && ss[0].held == 0 && !ss[0].long
    && (forall k | 0 <= k < |es| :: Enabled(ss[k], es[k]) && ss[k + 1] == Apply(ss[k], es[k]))
  }

  /** Before step `n` nothing was taken back that must stay. */
  ghost predicate NeededStays(ss: seq<State>, es: seq<Event>, n: nat)
    requires |ss| == |es| + 1 && n <= |es|
  {
    forall k | 0 <= k < n :: KeepsNeeded(ss[k], es[k])
  }

  lemma {:induction false} InvAlways(ss: seq<State>, es: seq<Event>, n: nat)
    requires IsRun(ss, es) && n <= |es| && NeededStays(ss, es, n)
    ensures Good(ss[n])
  {
    if n > 0 {
      InvAlways(ss, es, n - 1);
      OneStep(ss[n - 1], es[n - 1]);
    }
  }

  ghost predicate AlwaysHarmless(ss: seq<State>) { forall n | 0 <= n < |ss| :: !Harms(ss[n]) }

  /**
   * A run never comes to where harm can follow, without anything more being taken back, exactly when it never takes
   * back what must stay.
   */
  lemma HarmlessIff(ss: seq<State>, es: seq<Event>)
    requires IsRun(ss, es)
    ensures AlwaysHarmless(ss) <==> NeededStays(ss, es, |es|)
  {
    if NeededStays(ss, es, |es|) {
      forall n | 0 <= n < |ss| ensures !Harms(ss[n]) {
        InvAlways(ss, es, n);
        GoodIsHarmless(ss[n]);
      }
    }
    if AlwaysHarmless(ss) { StaysHarmless(ss, es, |es|); }
  }

  lemma {:induction false} StaysHarmless(ss: seq<State>, es: seq<Event>, n: nat)
    requires IsRun(ss, es) && n <= |es| && AlwaysHarmless(ss)
    ensures NeededStays(ss, es, n)
  {
    if n > 0 {
      StaysHarmless(ss, es, n - 1);
      InvAlways(ss, es, n - 1);
      assert !Harms(ss[n]);
      if es[n - 1].TakeBack? { TakingBackHarmsIff(ss[n - 1]); }
    }
  }

  // ---- what is never lost ----------------------------------------------------------------------------------------

  /** The words of `copy` are, in one run, words of `body`. */
  ghost predicate Holds(body: seq<Msg>, copy: seq<Msg>) {
    exists a: nat :: a + |copy| <= |body| && Aligned(body, copy, a)
  }

  ghost predicate Aligned(body: seq<Msg>, copy: seq<Msg>, a: nat)
    requires a + |copy| <= |body|
  {
    forall k | 0 <= k < |copy| :: WordsOf(body[a + k]) == WordsOf(copy[k])
  }

  lemma PlacedIsHeld(copy: seq<Msg>, slice: seq<Msg>, base: nat, long: bool)
    requires Placed(copy, slice, base, long) && |slice| <= MESSAGES_MAX
    ensures Holds(ForSaving(slice), copy)
    ensures !long ==> |copy| <= |ForSaving(slice)| && Aligned(ForSaving(slice), copy, 0)
  {
    var body := ForSaving(slice);
    assert slice[0..] == slice && body == KeptAll(slice);
    var a := if copy == [] then 0 else base - |copy|;
    assert Aligned(body, copy, a);
  }

  /**
   * Every save that goes through over an existing copy, however late it lands, was made from a part of the talk that
   * holds every word of that copy; what it puts in the copy's place holds them too while that part is 200 messages at
   * most, and at its start while the conversation never was longer. The copy was acknowledged to the client, or taken
   * for its own because its marks are the start of a save.
   */
  lemma NothingSaidIsErased(ss: seq<State>, es: seq<Event>, n: nat)
    requires IsRun(ss, es) && n < |es| && NeededStays(ss, es, n) && es[n].Land?
    requires ss[n].line[es[n].k].request.Put? && Accepts(ss[n].server, ss[n].line[es[n].k].request)
    ensures var x, server := ss[n].line[es[n].k], ss[n].server;
            var versions := server[x.request.id].versions;
            && versions != []
            && Placed(versions[|versions| - 1], x.slice, x.base, x.long)
            && x.request.body == ForSaving(x.slice)
            && (|x.slice| <= MESSAGES_MAX ==> Holds(x.request.body, versions[|versions| - 1]))
            && (|x.slice| <= MESSAGES_MAX && !x.long ==>
                  |versions[|versions| - 1]| <= |x.request.body|
                    && Aligned(x.request.body, versions[|versions| - 1], 0))
            && ss[n + 1].server[x.request.id].versions == versions + [x.request.body]
    ensures var r, server := ss[n].line[es[n].k].request, ss[n].server;
            exists t | t in ss[n].taken :: t.id == r.id && t.at == |server[r.id].versions| && Own(server, t)
  {
    InvAlways(ss, es, n);
    var s, x := ss[n], ss[n].line[es[n].k];
    var versions := s.server[x.request.id].versions;
    assert SentOk(s.server, x);
    if |x.slice| <= MESSAGES_MAX { PlacedIsHeld(versions[|versions| - 1], x.slice, x.base, x.long); }
    assert Traced(s, x.request.id, |versions|);
    var k :| 0 <= k < |s.taken| && s.taken[k].id == x.request.id && s.taken[k].at == |versions|;
    assert s.taken[k] in s.taken && Own(s.server, s.taken[k]);
  }

  /**
   * The places in the talk stay in order. What is counted as saved stands at its own place in a version acknowledged to
   * the client or taken for its own, unless a save of more than 200 messages left it out; the rest is in the next
   * save's part.
   */
  lemma NothingFallsBetween(ss: seq<State>, es: seq<Event>, n: nat, i: nat)
    requires IsRun(ss, es) && n <= |es| && NeededStays(ss, es, n) && i < |ss[n].messages|
    ensures ss[n].chat.from <= ss[n].chat.savedTo <= |ss[n].messages|
    ensures i < ss[n].chat.savedTo ==> Skipped(ss[n].skipped, i) || Stands(ss[n], i)
    ensures i >= ss[n].chat.savedTo ==> i >= ss[n].chat.from && Slice(ss[n])[i - ss[n].chat.from] == ss[n].messages[i]
  {
    InvAlways(ss, es, n);
  }

  // ---- new conversations -----------------------------------------------------------------------------------------

  /** What is sent when the client goes on after a fork: everything not acknowledged, once an answer stands last. */
  function ForkSends(s: State): seq<Sent> {
    var m := s.messages;
    if s.chat.savedTo < |m| && m[|m| - 1].assistant then
      [Sent(Post(ForSaving(m[s.chat.savedTo..])), m[s.chat.savedTo..], 0, |m| - s.chat.savedTo > MESSAGES_MAX, None)]
    else []
  }

  /** The copy is the start of the save, or all of it: the same messages, and the same was made of each. */
  predicate StartOf(copy: seq<Msg>, kept: seq<Msg>) {
    |copy| <= |kept| && forall k | 0 <= k < |copy| ::
      && copy[k].assistant == kept[k].assistant && copy[k].content == kept[k].content
      && copy[k].done == kept[k].done && copy[k].undone == kept[k].undone
  }

  lemma StartsIff(copy: seq<Msg>, kept: seq<Msg>)
    ensures StartOf(copy, kept) <==> SameMarks(copy, kept)
  {
    if SameMarks(copy, kept) {
      forall k | 0 <= k < |copy|
        ensures copy[k].assistant == kept[k].assistant && copy[k].content == kept[k].content
          && copy[k].done == kept[k].done && copy[k].undone == kept[k].undone
      {
        assert Marks(copy[k]) == Marks(kept[k]);
      }
    }
  }

  /**
   * In every such run a refused save ends in a fork exactly when no copy was read there, or one that is not the start
   * of it. A fork begins at the first message not acknowledged: that is where the save it sends begins,
   * and all below stands in versions acknowledged or taken, but for what the 200 limit left out.
   */
  lemma AFork(ss: seq<State>, es: seq<Event>, n: nat)
    requires IsRun(ss, es) && n < |es| && NeededStays(ss, es, n) && es[n].Resolve?
    ensures var s, t := ss[n], ss[n + 1];
            t.chat.id.None? <==> s.phase.theirs.None? || !StartOf(s.phase.theirs.value.messages, s.phase.kept)
    ensures var s, t := ss[n], ss[n + 1];
            t.chat.id.None? ==>
              && t.chat.from == t.chat.savedTo == s.chat.savedTo <= |t.messages|
              && t.line == s.line + ForkSends(s)
              && forall i | 0 <= i < t.chat.from && !Skipped(t.skipped, i) :: Stands(t, i)
  {
    InvAlways(ss, es, n);
    var s, t := ss[n], ss[n + 1];
    OneStep(s, es[n]);
    if s.phase.theirs.Some? { StartsIff(s.phase.theirs.value.messages, s.phase.kept); }
    var u := AfterRefused(s);
    if u.chat.id.None? { ForkGoesOn(s); }
  }

  lemma ForkedState(s: State)
    requires Good(s) && s.phase.Read? && AfterRefused(s).chat.id.None?
    ensures var u := AfterRefused(s);
      && u.chat.from == u.chat.savedTo == s.chat.savedTo <= |u.messages| && !u.long
      && u.line == s.line && u.messages == s.messages
      && (ForkSends(s) != [] ==> u.chat.again)
  {
    var m := s.messages;
    if s.chat.savedTo < |m| && m[|m| - 1].assistant { assert exists k | s.chat.savedTo <= k < |m| :: m[k].assistant; }
  }

  lemma ForkGoesOn(s: State)
    requires Good(s) && s.phase.Read? && AfterRefused(s).chat.id.None?
    ensures var t := Loop(AfterRefused(s));
      t.line == s.line + ForkSends(s) && t.chat.id.None? && t.chat.from == t.chat.savedTo == s.chat.savedTo
  {
    var u := AfterRefused(s);
    ForkedState(s);
    FreshBegin(u);
    assert ForkSends(u) == ForkSends(s);
  }

  /** A conversation not yet created has something to send when an answer stands last. */
  lemma NothingNewYet(c: Chat, slice: seq<Msg>)
    requires c.id.None?
    ensures NothingNew(c, ForSaving(slice)) <==> slice == [] || !slice[|slice| - 1].assistant
  {
    LastOfSaving(slice);
  }

  lemma FreshBegin(u: State)
    requires u.chat.id.None? && u.chat.from == u.chat.savedTo <= |u.messages| && !u.long
    ensures var t := Begin(u); t.chat == u.chat.(again := false) && t.line == u.line + ForkSends(u)
  {
    var slice, t := Slice(u), u.(chat := u.chat.(again := false));
    assert Slice(t) == slice == u.messages[u.chat.savedTo..];
    NothingNewYet(t.chat, slice);
    assert slice != [] ==> slice[|slice| - 1] == u.messages[|u.messages| - 1];
  }

  /** A save ends with what its part of the talk ends with. */
  lemma LastOfSaving(slice: seq<Msg>)
    ensures slice == [] <==> ForSaving(slice) == []
    ensures slice != [] ==> ForSaving(slice)[|ForSaving(slice)| - 1] == KeptMsg(slice[|slice| - 1])
  {
  }

  /**
   * Whenever a new conversation is begun, it begins at the first message not acknowledged, with all below standing as
   * above; or it is the save just refused because its conversation was deleted, made again.
   */
  lemma EveryNewConversation(ss: seq<State>, es: seq<Event>, n: nat)
    requires IsRun(ss, es) && n < |es| && NeededStays(ss, es, n)
    requires |ss[n + 1].line| > |ss[n].line| && ss[n + 1].line[|ss[n].line|].request.Post?
    ensures var s, t := ss[n], ss[n + 1];
            var x := t.line[|s.line|];
            || (es[n].Hear? && s.line[s.phase.sent].answer == Some(NotFound) && x.slice == s.line[s.phase.sent].slice)
            || (t.chat.savedTo <= |t.messages| && x.slice == t.messages[t.chat.savedTo..]
                && forall i | 0 <= i < t.chat.savedTo && !Skipped(t.skipped, i) :: Stands(t, i))
  {
    InvAlways(ss, es, n);
    OneStep(ss[n], es[n]);
    var s := ss[n];
    match es[n] {
      case Save => BeginsUnsaved(s);
      case Hear => HearBeginsUnsaved(s);
      case Resolve =>
        RefusedKeeps(s);
        BeginsUnsaved(AfterRefused(s));
      case _ =>
    }
  }

  lemma HearBeginsUnsaved(s: State)
    requires Good(s) && Enabled(s, Hear)
    ensures var t := Apply(s, Hear); |t.line| > |s.line| && t.line[|s.line|].request.Post? ==>
      if s.line[s.phase.sent].answer == Some(NotFound) then t.line[|s.line|].slice == s.line[s.phase.sent].slice
      else t.line[|s.line|].slice == t.messages[t.chat.savedTo..]
  {
    match s.line[s.phase.sent].answer.value {
      case Saved(id, at) =>
        SavedKeeps(s, id, at);
        BeginsUnsaved(AfterSaved(s, id, at));
      case _ =>
    }
  }

  lemma BeginsUnsaved(s: State)
    requires Settled(s)
    ensures var t := Begin(s); |t.line| > |s.line| && t.line[|s.line|].request.Post? ==>
      t.line[|s.line|].slice == t.messages[t.chat.savedTo..]
  {
  }

  // ---- taking back questions -------------------------------------------------------------------------------------

  predicate TakesAQuestion(s: State, e: Event) {
    e.TakeBack? ==> s.messages == [] || !s.messages[|s.messages| - 1].assistant
  }

  /**
   * How far all that was saved, is known to be saved or is being saved reaches into the talk, whether it still counts.
   */
  function Reach(s: State): nat {
    var known := if s.chat.id.Some? then Max(s.held, s.chat.savedTo) else s.chat.savedTo;
    match s.phase
    case Idle => known
    case Saving(_, _, upTo) => Max(known, upTo)
    case Reading(_, upTo) => Max(known, upTo)
    case Read(_, upTo, _) => Max(known, upTo)
  }

  lemma NeedsAreWithinReach(s: State)
    requires Good(s)
    ensures Needs(s) <= Reach(s)
  {
  }

  /** All that was saved, known to be saved or being saved stands before some answer. */
  ghost predicate Anchored(s: State) {
    exists f: nat :: AnchorAt(s, f)
  }

  predicate AnchorAt(s: State, f: nat) {
    Reach(s) <= f <= |s.messages| && (f > 0 ==> s.messages[f - 1].assistant)
  }

  lemma SendIsAnchored(s: State, slice: seq<Msg>)
    requires Reach(s.(phase := Idle)) <= |s.messages| && s.messages != [] && s.messages[|s.messages| - 1].assistant
    ensures Anchored(Send(s, slice))
  {
    assert AnchorAt(Send(s, slice), |s.messages|);
  }

  /** What is sent ends with an answer. */
  lemma SomethingNew(c: Chat, s: State)
    requires !NothingNew(c, ForSaving(Slice(s)))
    ensures s.messages != [] && s.messages[|s.messages| - 1].assistant
  {
    LastOfSaving(Slice(s));
    assert Slice(s)[|Slice(s)| - 1] == s.messages[|s.messages| - 1];
  }

  lemma BeginIsAnchored(s: State)
    requires Anchored(s.(phase := Idle))
    ensures Anchored(Begin(s))
  {
    var f: nat :| AnchorAt(s.(phase := Idle), f);
    var t := s.(chat := s.chat.(again := false));
    assert AnchorAt(t.(phase := Idle), f);
    if !NothingNew(t.chat, ForSaving(Slice(t))) {
      SomethingNew(t.chat, t);
      SendIsAnchored(t, Slice(t));
    }
  }

  lemma LoopIsAnchored(s: State)
    requires Anchored(s.(phase := Idle))
    ensures Anchored(Loop(s))
  {
    if s.chat.again { BeginIsAnchored(s); }
  }

  /** Nothing else reaches further, and what stands there stays. */
  lemma NoFurther(s: State, t: State)
    requires Anchored(s) && Reach(t) <= Reach(s) && |t.messages| >= |s.messages|
    requires forall i | 0 <= i < |s.messages| :: t.messages[i].assistant == s.messages[i].assistant
    ensures Anchored(t)
  {
    var f: nat :| AnchorAt(s, f);
    assert AnchorAt(t, f);
  }

  lemma QuestionGoes(s: State)
    requires Good(s) && Anchored(s) && TakesAQuestion(s, TakeBack)
    ensures KeepsNeeded(s, TakeBack) && Anchored(Apply(s, TakeBack))
  {
    NeedsAreWithinReach(s);
    var f: nat :| AnchorAt(s, f);
    assert AnchorAt(Apply(s, TakeBack), f);
  }

  lemma HearIsAnchored(s: State)
    requires Good(s) && Anchored(s) && Enabled(s, Hear)
    ensures Anchored(Apply(s, Hear))
  {
    var answer := s.line[s.phase.sent].answer.value;
    if answer.Saved? {
      var t := AfterSaved(s, answer.id, answer.updatedAt);
      NoFurther(s, t.(phase := Idle));
      LoopIsAnchored(t);
    } else {
      NoFurther(s, Apply(s, Hear));
    }
  }

  lemma RefusedIsAnchored(s: State)
    requires Good(s) && Anchored(s) && s.phase.Read?
    ensures Anchored(AfterRefused(s).(phase := Idle))
  {
    NoFurther(s, AfterRefused(s).(phase := Idle));
  }

  lemma ResolveIsAnchored(s: State)
    requires Good(s) && Anchored(s) && s.phase.Read?
    ensures Anchored(Apply(s, Resolve))
  {
    var t := AfterRefused(s);
    RefusedIsAnchored(s);
    LoopIsAnchored(t);
  }

  lemma AnchoredStep(s: State, e: Event)
    requires Good(s) && Anchored(s) && Enabled(s, e) && TakesAQuestion(s, e)
    ensures Anchored(Apply(s, e))
  {
    match e {
      case TakeBack => QuestionGoes(s);
      case Save => if s.phase.Idle? { BeginIsAnchored(s); } else { NoFurther(s, Apply(s, e)); }
      case Hear => HearIsAnchored(s);
      case Resolve => ResolveIsAnchored(s);
      case _ => NoFurther(s, Apply(s, e));
    }
  }

  /**
   * Taking back questions alone is always safe: in a run that takes back nothing else, nothing is ever taken back that
   * was saved or was being saved. With one question at a time nothing else is taken back.
   */
  lemma {:induction false} QuestionsMayGo(ss: seq<State>, es: seq<Event>, n: nat)
    requires IsRun(ss, es) && n <= |es| && forall k | 0 <= k < n :: TakesAQuestion(ss[k], es[k])
    ensures NeededStays(ss, es, n) && Good(ss[n]) && Anchored(ss[n])
  {
    if n == 0 {
      assert AnchorAt(ss[0], 0);
      InvAlways(ss, es, 0);
    } else {
      QuestionsMayGo(ss, es, n - 1);
      if es[n - 1].TakeBack? { QuestionGoes(ss[n - 1]); }
      AnchoredStep(ss[n - 1], es[n - 1]);
      InvAlways(ss, es, n);
    }
  }

  // ---- an answer taken back --------------------------------------------------------------------------------------

  lemma ShortIsKept(ms: seq<Msg>)
    requires |ms| <= MESSAGES_MAX && forall m | m in ms :: |m.content| <= CONTENT_MAX
    ensures ForSaving(ms) == ms
  {
    assert ms[0..] == ms;
    forall k | 0 <= k < |ms| ensures KeptMsg(ms[k]) == ms[k] { assert ms[k] in ms; }
  }

  const QUESTION := Msg(false, "a", [], [], 0)
  const SECOND := Msg(false, "b", [], [], 0)
  const ANSWER := Msg(true, "B", [], [], 0)
  const THIRD := Msg(false, "c", [], [], 0)
  const THIRD_ANSWER := Msg(true, "C", [], [], 0)
  const FOREIGN := Msg(true, "elsewhere", [], [], 0)

  const START := State([], NEW_CHAT, Idle, [], map[], [], false, 0, [])
  const TALK := [QUESTION, SECOND, ANSWER]

  /** Two questions at once, and the second one answered and saved. */
  const SAVED := State(
    TALK, Chat(Some(7), Some(1), Some(TALK), 0, 3, false), Idle, [Sent(Post(TALK), TALK, 0, false, Some(Saved(7, 1)))],
    map[7 := Conv([TALK], false)], [], false, 3, [Taking(7, 1, 3, TALK)])

  const SAID := START.(messages := TALK)

  lemma TalkIsSaid()
    ensures After(START, [Say(QUESTION), Say(SECOND), Say(ANSWER)]) == Some(SAID)
  {
    var s1, s2 := START.(messages := [QUESTION]), START.(messages := [QUESTION, SECOND]);
    assert [] + [QUESTION] == [QUESTION] && [QUESTION] + [SECOND] == [QUESTION, SECOND];
    assert [QUESTION, SECOND] + [ANSWER] == TALK;
    assert Apply(START, Say(QUESTION)) == s1 && Apply(s1, Say(SECOND)) == s2 && Apply(s2, Say(ANSWER)) == SAID;
    First(s2, Say(ANSWER), []);
    First(s1, Say(SECOND), [Say(ANSWER)]);
    First(START, Say(QUESTION), [Say(SECOND)] + [Say(ANSWER)]);
    assert [Say(QUESTION), Say(SECOND), Say(ANSWER)] == [Say(QUESTION)] + ([Say(SECOND)] + [Say(ANSWER)]);
  }

  lemma TalkIsSaved()
    ensures After(SAID, [Save, Land(0, 7), Hear]) == Some(SAVED)
  {
    var s4 := SAID.(phase := Saving(0, TALK, 3), line := [Sent(Post(TALK), TALK, 0, false, None)]);
    ShortIsKept(TALK);
    assert Slice(SAID) == TALK;
    assert Apply(SAID, Save) == s4;
    var s5 := s4.(
      line := [Sent(Post(TALK), TALK, 0, false, Some(Saved(7, 1)))], server := map[7 := Conv([TALK], false)]);
    assert Apply(s4, Land(0, 7)) == s5;
    assert Apply(s5, Hear) == SAVED;
    First(s5, Hear, []);
    First(s4, Land(0, 7), [Hear]);
    First(SAID, Save, [Land(0, 7)] + [Hear]);
    assert [Save, Land(0, 7), Hear] == [Save] + ([Land(0, 7)] + [Hear]);
  }

  lemma TwoQuestionsOneSaved()
    ensures After(START, [Say(QUESTION), Say(SECOND), Say(ANSWER)] + [Save, Land(0, 7), Hear]) == Some(SAVED)
  {
    TalkIsSaid();
    TalkIsSaved();
    Joined(START, [Say(QUESTION), Say(SECOND), Say(ANSWER)], [Save, Land(0, 7), Hear]);
  }

  const REST := [QUESTION, SECOND, THIRD, THIRD_ANSWER]

  /** The first question then fails, which takes back the saved answer; the next one is asked and answered. */
  const GONE_ON := SAVED.(messages := REST)

  lemma AnswerTakenBack()
    ensures After(SAVED, [TakeBack, Say(THIRD), Say(THIRD_ANSWER)]) == Some(GONE_ON)
    ensures Apply(SAVED, TakeBack).chat.savedTo == 3 > |Apply(SAVED, TakeBack).messages| == 2
    ensures !KeepsNeeded(SAVED, TakeBack)
  {
    var s1 := SAVED.(messages := [QUESTION, SECOND]);
    assert Apply(SAVED, TakeBack) == s1 by { assert TALK[..2] == [QUESTION, SECOND]; }
    var s2 := s1.(messages := [QUESTION, SECOND, THIRD]);
    assert Apply(s1, Say(THIRD)) == s2 && Apply(s2, Say(THIRD_ANSWER)) == GONE_ON;
    First(s2, Say(THIRD_ANSWER), []);
    First(s1, Say(THIRD), [Say(THIRD_ANSWER)]);
    First(SAVED, TakeBack, [Say(THIRD)] + [Say(THIRD_ANSWER)]);
    assert [TakeBack, Say(THIRD), Say(THIRD_ANSWER)] == [TakeBack] + ([Say(THIRD)] + [Say(THIRD_ANSWER)]);
  }

  const SENT_AGAIN := GONE_ON.(
    phase := Saving(1, REST, 4), line := GONE_ON.line + [Sent(Put(7, REST, Some(1)), REST, 3, false, None)])

  lemma SendsTheRest(server: Server)
    ensures Apply(GONE_ON.(server := server), Save) == SENT_AGAIN.(server := server)
  {
    var s := GONE_ON.(server := server);
    ShortIsKept(REST);
    assert Slice(s) == REST && s.chat.(again := false) == s.chat;
    assert REST != TALK by { assert |REST| != |TALK|; }
  }

  /** The next save goes over the copy that holds the answer, and the answer is gone. */
  lemma SavedAnswerIsErased()
    ensures After(GONE_ON, [Save, Land(1, 8)]).Some?
    ensures var t := After(GONE_ON, [Save, Land(1, 8)]).value;
      7 in t.server && t.server[7].versions == [TALK, REST] && !Placed(TALK, REST, 3, false)
  {
    SendsTheRest(GONE_ON.server);
    var s := SENT_AGAIN;
    var t := Apply(s, Land(1, 8));
    First(s, Land(1, 8), []);
    First(GONE_ON, Save, [Land(1, 8)]);
    assert [Save, Land(1, 8)] == [Save] + [Land(1, 8)];
    assert t.server[7].versions == [TALK] + [REST];
    assert WordsOf(TALK[2]) != Said(REST[2]);
  }

  const ELSEWHERE := [FOREIGN]
  const FORKED := SENT_AGAIN.(
    server := map[7 := Conv([TALK, ELSEWHERE], false)], messages := REST,
    chat := Chat(None, None, None, 3, 3, false), phase := Saving(2, [THIRD_ANSWER], 4),
    line := GONE_ON.line + [Sent(Put(7, REST, Some(1)), REST, 3, false, Some(Conflict)),
                            Sent(Post([THIRD_ANSWER]), [THIRD_ANSWER], 0, false, None)])

  const REFUSED := SENT_AGAIN.(
    server := map[7 := Conv([TALK, ELSEWHERE], false)], phase := Reading(REST, 4),
    line := GONE_ON.line + [Sent(Put(7, REST, Some(1)), REST, 3, false, Some(Conflict))])

  lemma IsRefused()
    ensures After(GONE_ON, [Elsewhere(7, ELSEWHERE), Save, Land(1, 8), Hear]) == Some(REFUSED)
  {
    var server := map[7 := Conv([TALK, ELSEWHERE], false)];
    var s1 := GONE_ON.(server := server);
    assert Apply(GONE_ON, Elsewhere(7, ELSEWHERE)) == s1 by { assert [TALK] + [ELSEWHERE] == [TALK, ELSEWHERE]; }
    SendsTheRest(server);
    var s2, s3 := SENT_AGAIN.(server := server), REFUSED.(phase := SENT_AGAIN.phase);
    assert Apply(s2, Land(1, 8)) == s3;
    assert Apply(s3, Hear) == REFUSED;
    First(s3, Hear, []);
    First(s2, Land(1, 8), [Hear]);
    First(s1, Save, [Land(1, 8)] + [Hear]);
    First(GONE_ON, Elsewhere(7, ELSEWHERE), [Save] + ([Land(1, 8)] + [Hear]));
    assert [Elsewhere(7, ELSEWHERE), Save, Land(1, 8), Hear]
        == [Elsewhere(7, ELSEWHERE)] + ([Save] + ([Land(1, 8)] + [Hear]));
  }

  /**
   * Refused because of a foreign copy, the fork begins past the third question: it counts as saved, and is kept
   * nowhere.
   */
  lemma QuestionFallsBetween()
    ensures After(GONE_ON, [Elsewhere(7, ELSEWHERE), Save, Land(1, 8), Hear] + [Look, Resolve]) == Some(FORKED)
    ensures FORKED.messages[2] == THIRD && 2 < FORKED.chat.savedTo && FORKED.skipped == [] && !Stands(FORKED, 2)
    ensures Slice(FORKED) == [THIRD_ANSWER]
  {
    IsRefused();
    var s := REFUSED.(phase := Read(REST, 4, Some(Copy(ELSEWHERE, 2))));
    assert Apply(REFUSED, Look) == s;
    NowForks(s);
    First(s, Resolve, []);
    First(REFUSED, Look, [Resolve]);
    assert [Look, Resolve] == [Look] + [Resolve];
    Joined(GONE_ON, [Elsewhere(7, ELSEWHERE), Save, Land(1, 8), Hear], [Look, Resolve]);
    assert FORKED.taken == [Taking(7, 1, 3, TALK)] && WordsOf(TALK[2]) != Said(REST[2]);
  }

  lemma NowForks(s: State)
    requires s == SENT_AGAIN.(
      server := map[7 := Conv([TALK, ELSEWHERE], false)], phase := Read(REST, 4, Some(Copy(ELSEWHERE, 2))),
      line := GONE_ON.line + [Sent(Put(7, REST, Some(1)), REST, 3, false, Some(Conflict))])
    ensures Apply(s, Resolve) == FORKED
  {
    assert !SameMarks(ELSEWHERE, REST) by { assert Marks(ELSEWHERE[0]) != Marks(REST[0]); }
    var u := AfterRefused(s);
    assert REST[3].assistant;
    assert u == s.(chat := Chat(None, None, None, 3, 3, true));
    ShortIsKept([THIRD_ANSWER]);
    assert Slice(u) == [THIRD_ANSWER];
  }
}
