/**
 * Saves whose answer was lost: found there, they are taken for what they are, and a conversation that nobody else
 * writes to stays one.
 */
module ChatLostAnswers {
  import opened Options
  import opened ChatSaving
  import opened ChatSafety
  import opened ChatRuns
  import opened ChatOutcomes

  // ---- the save under way ----------------------------------------------------------------------------------------

  /** A save under way is the newest request on the line, and was worth sending. */
  predicate InTheLine(s: State) {
    !s.phase.Idle? ==>
      && s.line != [] && s.line[|s.line| - 1].request.body == s.phase.kept && !NothingNew(s.chat, s.phase.kept)
      && (s.phase.Saving? ==> s.phase.sent + 1 == |s.line|)
  }

  lemma BeginIsInLine(s: State)
    ensures InTheLine(Begin(s))
  {
  }

  lemma InLineStep(s: State, e: Event)
    requires InTheLine(s) && Enabled(s, e)
    ensures InTheLine(Apply(s, e))
  {
    match e {
      case Save => if s.phase.Idle? { BeginIsInLine(s); }
      case Hear =>
        var a := s.line[s.phase.sent].answer.value;
        if a.Saved? { BeginIsInLine(AfterSaved(s, a.id, a.updatedAt)); }
      case Resolve => BeginIsInLine(AfterRefused(s));
      case _ =>
    }
  }

  lemma {:induction false} InLineAlways(ss: seq<State>, es: seq<Event>, n: nat)
    requires IsRun(ss, es) && n <= |es|
    ensures InTheLine(ss[n])
  {
    if n > 0 {
      InLineAlways(ss, es, n - 1);
      InLineStep(ss[n - 1], es[n - 1]);
    }
  }

  // ---- a version that is the client's own ------------------------------------------------------------------------

  lemma ShortBegins(earlier: seq<Msg>, later: seq<Msg>)
    requires StartOf(earlier, later) && |later| <= 200
    ensures StartOf(ForSaving(earlier), ForSaving(later))
    ensures |ForSaving(earlier)| == |earlier| && |ForSaving(later)| == |later|
  {
  }

  /** The copy read is what the request `k` of this client put there. */
  predicate ReadsOwn(s: State, k: nat) {
    && s.phase.Read? && s.phase.theirs.Some? && s.chat.id.Some? && k < |s.line|
    && s.line[k].answer == Some(Saved(s.chat.id.value, s.phase.theirs.value.updatedAt))
  }

  lemma OwnCopy(s: State, k: nat)
    requires Good(s) && ReadsOwn(s, k)
    ensures s.phase.theirs.value.messages == ForSaving(s.line[k].slice)
    ensures s.chat.updatedAt != Some(s.phase.theirs.value.updatedAt)
  {
    assert SentOk(s.server, s.line[k]);
  }

  /** What the refused save was made from. */
  function RefusedSlice(s: State): seq<Msg>
    requires s.line != []
  {
    s.line[|s.line| - 1].slice
  }

  lemma OwnStarts(s: State, k: nat)
    requires Good(s) && InTheLine(s) && ReadsOwn(s, k)
    requires StartOf(s.line[k].slice, RefusedSlice(s)) && |RefusedSlice(s)| <= 200
    ensures SameMarks(s.phase.theirs.value.messages, s.phase.kept)
    ensures |s.phase.theirs.value.messages| == |s.line[k].slice| && |s.phase.kept| == |RefusedSlice(s)|
  {
    OwnCopy(s, k);
    assert SentOk(s.server, s.line[|s.line| - 1]);
    ShortBegins(s.line[k].slice, RefusedSlice(s));
    StartsIff(s.phase.theirs.value.messages, s.phase.kept);
  }

  /** A turn of the loop begins from here with nothing sent, or with a save over the version at `at`. */
  predicate GoesOn(s: State, t: State, at: nat)
    requires s.chat.from <= |s.messages| && s.chat.id.Some?
  {
    if Something(s) then
      && |t.line| == |s.line| + 1 && t.phase == Saving(|s.line|, Next(s), |s.messages|)
      && t.line[|s.line|].request == Put(s.chat.id.value, Next(s), Some(at))
    else t.line == s.line && t.phase.Idle?
  }

  /** The copy read is another version, and the start of the refused save or all of it. */
  predicate Alike(s: State) {
    && s.phase.Read? && s.phase.theirs.Some? && s.chat.id.Some? && s.chat.from <= |s.messages|
    && SameMarks(s.phase.theirs.value.messages, s.phase.kept)
    && s.chat.updatedAt != Some(s.phase.theirs.value.updatedAt)
  }

  lemma OwnIsAlike(s: State, k: nat)
    requires Good(s) && InTheLine(s) && ReadsOwn(s, k)
    requires StartOf(s.line[k].slice, RefusedSlice(s)) && |RefusedSlice(s)| <= 200
    ensures Alike(s)
    ensures |s.phase.theirs.value.messages| == |s.line[k].slice| && |s.phase.kept| == |RefusedSlice(s)|
  {
    OwnStarts(s, k);
    OwnCopy(s, k);
  }

  lemma TakenUpGoesOn(s: State)
    requires Alike(s) && |s.phase.theirs.value.messages| < |s.phase.kept|
    ensures var t := Apply(s, Resolve);
      && t.chat == s.chat.(updatedAt := Some(s.phase.theirs.value.updatedAt), again := false)
      && GoesOn(s, t, s.phase.theirs.value.updatedAt)
  {
    var v := AfterRefused(s);
    assert v.chat == s.chat.(updatedAt := Some(s.phase.theirs.value.updatedAt), again := true);
    SomethingIff(s);
    assert Slice(v.(chat := v.chat.(again := false))) == Slice(s);
  }

  lemma FoundGoesOn(s: State)
    requires Alike(s) && |s.phase.theirs.value.messages| == |s.phase.kept|
    ensures var t := Apply(s, Resolve);
      t.chat == s.chat.(updatedAt := Some(s.phase.theirs.value.updatedAt), last := Some(s.phase.kept),
                        savedTo := s.phase.upTo, again := false)
  {
  }

  /**
   * A refused save that finds there what this client put there earlier, its answer lost, and that begins with the same
   * messages, 200 at most, never forks. When it holds no more than that one, it counts as saved; when it does, the next
   * request goes over exactly that version with all there is to save by then: the refused save itself, when nothing was
   * said or done meanwhile.
   */
  lemma LostSavesAreTakenUp(ss: seq<State>, es: seq<Event>, n: nat, k: nat)
    requires IsRun(ss, es) && n < |es| && NeededStays(ss, es, n) && es[n].Resolve? && ReadsOwn(ss[n], k)
    requires StartOf(ss[n].line[k].slice, RefusedSlice(ss[n])) && |RefusedSlice(ss[n])| <= 200
    ensures ss[n + 1].chat.id == ss[n].chat.id && ss[n].chat.id.Some?
    ensures ss[n + 1].chat.from == ss[n].chat.from <= |ss[n].messages|
    ensures ss[n + 1].chat.updatedAt == Some(ss[n].phase.theirs.value.updatedAt)
    ensures |ss[n].line[k].slice| == |RefusedSlice(ss[n])| ==>
      ss[n + 1].chat.savedTo == ss[n].phase.upTo && ss[n + 1].chat.last == Some(ss[n].phase.kept)
    ensures |ss[n].line[k].slice| < |RefusedSlice(ss[n])| ==>
      && ss[n + 1].chat.savedTo == ss[n].chat.savedTo && ss[n + 1].chat.last == ss[n].chat.last
      && GoesOn(ss[n], ss[n + 1], ss[n].phase.theirs.value.updatedAt)
      && (ss[n].messages[ss[n].chat.from..] == RefusedSlice(ss[n]) ==> Something(ss[n]))
  {
    InvAlways(ss, es, n);
    InLineAlways(ss, es, n);
    var s := ss[n];
    OwnIsAlike(s, k);
    if |s.line[k].slice| == |RefusedSlice(s)| {
      FoundGoesOn(s);
    } else {
      TakenUpGoesOn(s);
      assert SentOk(s.server, s.line[|s.line| - 1]);
      if s.messages[s.chat.from..] == RefusedSlice(s) { SomethingIff(s); }
    }
  }

  // ---- a conversation nobody else writes to ----------------------------------------------------------------------

  predicate AnsweredAt(line: seq<Sent>, id: ConvId, at: nat) {
    exists k :: 0 <= k < |line| && line[k].answer == Some(Saved(id, at))
  }

  /** A conversation that a request of this client made, or wrote to. */
  ghost predicate Mine(line: seq<Sent>, id: ConvId) { exists at :: AnsweredAt(line, id, at) }

  /**
   * Nobody else writes to or deletes a conversation of this client's, its copy can be read, and nothing said is taken
   * back or marked anew. Answers may be lost and requests land late all the same.
   */
  ghost predicate NobodyElse(s: State, e: Event) {
    match e
    case TakeBack => false
    case Remark(k, done, undone, _) => k < |s.messages| && s.messages[k].done == done && s.messages[k].undone == undone
    case LookInVain => false
    case Elsewhere(id, _) => !Mine(s.line, id)
    case ElsewhereDelete(id) => !Mine(s.line, id)
    case _ => true
  }

  /** All that was sent is the start of the talk, and never less than before. */
  ghost predicate Grown(s: State) {
    && s.chat.from == 0
    && (forall k | 0 <= k < |s.line| :: StartOf(s.line[k].slice, s.messages))
    && (forall j, k | 0 <= j < k < |s.line| :: |s.line[j].slice| <= |s.line[k].slice|)
  }

  /** Every version of its conversations is one of this client's saves. */
  ghost predicate Kept(s: State) {
    && (s.chat.id.Some? ==> Mine(s.line, s.chat.id.value))
    && (forall k | 0 <= k < |s.line| && s.line[k].request.Put? :: Mine(s.line, s.line[k].request.id))
    && (forall id | Mine(s.line, id) :: id in s.server && !s.server[id].deleted
                                   && forall at | 1 <= at <= |s.server[id].versions| :: AnsweredAt(s.line, id, at))
  }

  /** And what it is answered is of the conversation it wrote to. */
  ghost predicate Replies(s: State) {
    && (forall k | 0 <= k < |s.line| && s.line[k].answer.Some? ::
          && s.line[k].answer.value != NotFound
          && (s.line[k].request.Put? && s.line[k].answer.value.Saved? ==>
                s.line[k].answer.value.id == s.line[k].request.id))
    && (s.phase.Saving? && s.phase.sent < |s.line| && s.chat.id.Some? ==> s.line[s.phase.sent].request.Put?)
    && (s.phase.Read? ==> s.phase.theirs.Some?)
  }

  ghost predicate Alone(s: State) { Good(s) && InTheLine(s) && Grown(s) && Kept(s) && Replies(s) }

  /** What a step must show of where it leads: the rest is shown of every step. */
  ghost predicate StaysOne(s: State, t: State) {
    Grown(t) && Kept(t) && Replies(t) && (s.chat.id.Some? ==> t.chat.id == s.chat.id)
  }

  /** Nothing of that depends on more than the requests, their answers and the client's own conversations. */
  lemma SameLine(s: State, t: State)
    requires Kept(s) && Replies(s) && t.line == s.line && t.chat.id == s.chat.id
    requires forall id | Mine(s.line, id) :: id in t.server && t.server[id] == s.server[id]
    requires t.phase.Saving? ==> s.phase.Saving? && t.phase.sent == s.phase.sent
    requires t.phase.Read? ==> t.phase.theirs.Some?
    ensures Kept(t) && Replies(t)
  {
  }

  lemma MoreIsMine(line: seq<Sent>, x: Sent)
    requires x.answer == None
    ensures forall id, at :: AnsweredAt(line + [x], id, at) <==> AnsweredAt(line, id, at)
    ensures forall id :: Mine(line + [x], id) <==> Mine(line, id)
  {
    var more := line + [x];
    forall id, at | AnsweredAt(line, id, at) ensures AnsweredAt(more, id, at) {
      var k :| 0 <= k < |line| && line[k].answer == Some(Saved(id, at));
      assert more[k] == line[k];
    }
    forall id, at | AnsweredAt(more, id, at) ensures AnsweredAt(line, id, at) {
      var k :| 0 <= k < |more| && more[k].answer == Some(Saved(id, at));
      assert k < |line|;
    }
    forall id | Mine(line, id) ensures Mine(more, id) {
      var at :| AnsweredAt(line, id, at);
      assert AnsweredAt(more, id, at);
    }
  }

  /** One request more, of all there is, to the conversation known or to a new one. */
  lemma OneRequestMore(s: State, t: State, x: Sent)
    requires Grown(s) && Kept(s) && Replies(s) && t.line == s.line + [x] && x.answer == None
    requires t.server == s.server && t.chat.id == s.chat.id && t.chat.from == 0 && t.messages == s.messages
    requires x.slice == s.messages && (s.chat.id.Some? <==> x.request.Put?)
    requires x.request.Put? ==> x.request.id == s.chat.id.value
    requires t.phase.Saving? && t.phase.sent == |s.line|
    ensures Grown(t) && Kept(t) && Replies(t)
  {
    MoreIsMine(s.line, x);
    assert forall k | 0 <= k < |s.line| :: t.line[k] == s.line[k];
  }

  lemma BeginIsAlone(s: State)
    requires Grown(s) && Kept(s) && Replies(s.(phase := Idle))
    ensures Grown(Begin(s)) && Kept(Begin(s)) && Replies(Begin(s)) && Begin(s).chat.id == s.chat.id
  {
    var t := Begin(s);
    assert s.messages[0..] == s.messages;
    if t.line == s.line {
      SameLine(s.(phase := Idle), t);
    } else {
      OneRequestMore(s.(phase := Idle), t, t.line[|s.line|]);
    }
  }

  lemma LoopIsAlone(s: State)
    requires Grown(s) && Kept(s) && Replies(s.(phase := Idle))
    ensures Grown(Loop(s)) && Kept(Loop(s)) && Replies(Loop(s)) && Loop(s).chat.id == s.chat.id
  {
    if s.chat.again { BeginIsAlone(s); } else { SameLine(s.(phase := Idle), s.(phase := Idle)); }
  }

  lemma AnswerIsMine(line: seq<Sent>, k: nat, a: Answer)
    requires k < |line| && line[k].answer == None
    ensures var more := line[k := line[k].(answer := Some(a))];
      && (forall id, at :: AnsweredAt(more, id, at) <==> AnsweredAt(line, id, at) || a == Saved(id, at))
      && (forall id :: Mine(more, id) <==> Mine(line, id) || (a.Saved? && a.id == id))
  {
    var more := line[k := line[k].(answer := Some(a))];
    forall id, at | AnsweredAt(line, id, at) ensures AnsweredAt(more, id, at) {
      var j :| 0 <= j < |line| && line[j].answer == Some(Saved(id, at));
      assert more[j] == line[j];
    }
    forall id, at | a == Saved(id, at) ensures AnsweredAt(more, id, at) { assert more[k].answer == Some(a); }
    forall id, at | AnsweredAt(more, id, at) && a != Saved(id, at) ensures AnsweredAt(line, id, at) {
      var j :| 0 <= j < |more| && more[j].answer == Some(Saved(id, at));
      assert more[j] == line[j];
    }
    forall id | Mine(line, id) || (a.Saved? && a.id == id) ensures Mine(more, id) {
      if Mine(line, id) {
        var at :| AnsweredAt(line, id, at);
        assert AnsweredAt(more, id, at);
      } else {
        assert AnsweredAt(more, id, a.updatedAt);
      }
    }
  }

  /** A request lands with an answer of its own conversation, or of the new one it made. */
  predicate Fitting(server: Server, r: Request, newId: ConvId, a: Answer) {
    match a
    case Saved(id, at) =>
      if r.Post? then id == newId && at == 1
      else id == r.id && r.id in server && !server[r.id].deleted && at == |server[r.id].versions| + 1
    case Conflict => r.Put?
    case NotFound => false
  }

  lemma LandFits(s: State, k: nat, newId: ConvId)
    requires Kept(s) && Enabled(s, Land(k, newId))
    ensures var r, a := s.line[k].request, AnswerOf(s.server, s.line[k].request, newId);
      && Fitting(s.server, r, newId, a)
      && Landed(s.server, r, newId) == (if a.Conflict? then s.server
                                        else if r.Post? then s.server[newId := Conv([r.body], false)]
                                        else WithVersion(s.server, r.id, r.body))
  {
  }

  lemma LandIsKept(s: State, t: State, k: nat, newId: ConvId, a: Answer)
    requires Kept(s) && k < |s.line| && s.line[k].answer.None? && newId !in s.server
    requires Fitting(s.server, s.line[k].request, newId, a) && t.chat == s.chat
    requires t.line == s.line[k := s.line[k].(answer := Some(a))]
    requires t.server == if a.Conflict? then s.server
                         else if s.line[k].request.Post? then s.server[newId := Conv([s.line[k].request.body], false)]
                         else WithVersion(s.server, s.line[k].request.id, s.line[k].request.body)
    ensures Kept(t)
  {
    AnswerIsMine(s.line, k, a);
    assert forall j | 0 <= j < |s.line| :: t.line[j].request == s.line[j].request;
    forall id | Mine(t.line, id)
      ensures id in t.server && !t.server[id].deleted
      ensures forall at | 1 <= at <= |t.server[id].versions| :: AnsweredAt(t.line, id, at)
    {
      assert id != newId ==> Mine(s.line, id);
    }
  }

  lemma LandIsAlone(s: State, k: nat, newId: ConvId)
    requires Grown(s) && Kept(s) && Replies(s) && Enabled(s, Land(k, newId))
    ensures StaysOne(s, Apply(s, Land(k, newId)))
  {
    var t, a := Apply(s, Land(k, newId)), AnswerOf(s.server, s.line[k].request, newId);
    LandFits(s, k, newId);
    LandIsKept(s, t, k, newId, a);
    assert forall j | 0 <= j < |s.line| && j != k :: t.line[j] == s.line[j];
  }

  lemma SavedIsAlone(s: State, id: ConvId, at: nat)
    requires Grown(s) && Kept(s) && Replies(s) && s.phase.Saving? && s.phase.sent < |s.line|
    requires s.line[s.phase.sent].answer == Some(Saved(id, at)) && (s.chat.id.Some? ==> s.chat.id.value == id)
    ensures StaysOne(s, Loop(AfterSaved(s, id, at)))
  {
    assert AnsweredAt(s.line, id, at);
    LoopIsAlone(AfterSaved(s, id, at));
  }

  lemma HearIsAlone(s: State)
    requires Alone(s) && Enabled(s, Hear)
    ensures StaysOne(s, Apply(s, Hear))
  {
    match s.line[s.phase.sent].answer.value {
      case Saved(id, at) => SavedIsAlone(s, id, at);
      case Conflict => SameLine(s, Apply(s, Hear));
      case NotFound =>
    }
  }

  /** Any two parts that went out start alike. */
  lemma StartsAlike(a: seq<Msg>, b: seq<Msg>, messages: seq<Msg>)
    requires StartOf(a, messages) && StartOf(b, messages) && |a| <= |b|
    ensures StartOf(a, b)
  {
  }

  lemma CopyIsRequest(s: State) returns (k: nat)
    requires Good(s) && Kept(s) && s.phase.Read? && s.phase.theirs.Some?
    ensures ReadsOwn(s, k)
  {
    var id, at := s.chat.id.value, s.phase.theirs.value.updatedAt;
    assert AnsweredAt(s.line, id, at);
    k :| 0 <= k < |s.line| && s.line[k].answer == Some(Saved(id, at));
  }

  lemma StartsRefused(s: State, k: nat)
    requires Grown(s) && k < |s.line| && |s.messages| <= 200
    ensures StartOf(s.line[k].slice, RefusedSlice(s)) && |RefusedSlice(s)| <= 200
  {
    StartsAlike(s.line[k].slice, RefusedSlice(s), s.messages);
  }

  lemma CopyIsOwn(s: State)
    requires Alone(s) && s.phase.Read? && |s.messages| <= 200
    ensures Alike(s)
  {
    var k := CopyIsRequest(s);
    StartsRefused(s, k);
    OwnIsAlike(s, k);
  }

  lemma ResolveIsAlone(s: State)
    requires Grown(s) && Kept(s) && Replies(s) && Alike(s)
    ensures StaysOne(s, Apply(s, Resolve))
  {
    var v := AfterRefused(s);
    assert v.chat.id == s.chat.id && v.chat.from == 0 && v.line == s.line && v.server == s.server;
    SameLine(s, v.(phase := Idle));
    LoopIsAlone(v);
  }

  lemma TalkIsAlone(s: State, e: Event)
    requires Grown(s) && Kept(s) && Replies(s) && Enabled(s, e) && NobodyElse(s, e) && (e.Say? || e.Remark?)
    ensures StaysOne(s, Apply(s, e))
  {
    var t := Apply(s, e);
    SameLine(s, t);
    forall k | 0 <= k < |t.line| ensures StartOf(t.line[k].slice, t.messages) {
      assert StartOf(s.line[k].slice, s.messages);
    }
  }

  lemma OthersAreAlone(s: State, e: Event)
    requires Grown(s) && Kept(s) && Replies(s) && Enabled(s, e) && NobodyElse(s, e)
    requires e.GiveUp? || e.Look? || e.Elsewhere? || e.ElsewhereNew? || e.ElsewhereDelete?
    ensures StaysOne(s, Apply(s, e))
  {
    SameLine(s, Apply(s, e));
  }

  lemma AloneStep(s: State, e: Event)
    requires Alone(s) && Enabled(s, e) && NobodyElse(s, e) && |s.messages| <= 200
    ensures Alone(Apply(s, e)) && (s.chat.id.Some? ==> Apply(s, e).chat.id == s.chat.id)
  {
    OneStep(s, e);
    InLineStep(s, e);
    match e {
      case Say(_) => TalkIsAlone(s, e);
      case Remark(_, _, _, _) => TalkIsAlone(s, e);
      case Save => if s.phase.Idle? { BeginIsAlone(s); } else { SameLine(s, Apply(s, e)); }
      case Land(k, newId) => LandIsAlone(s, k, newId);
      case Hear => HearIsAlone(s);
      case Resolve =>
        CopyIsOwn(s);
        ResolveIsAlone(s);
      case TakeBack =>
      case LookInVain =>
      case GiveUp => OthersAreAlone(s, e);
      case Look => OthersAreAlone(s, e);
      case Elsewhere(_, _) => OthersAreAlone(s, e);
      case ElsewhereNew(_, _) => OthersAreAlone(s, e);
      case ElsewhereDelete(_) => OthersAreAlone(s, e);
    }
  }

  /** Before step `n` nobody else wrote to the client's own conversations, and 200 messages were not passed. */
  ghost predicate OnlyHere(ss: seq<State>, es: seq<Event>, n: nat)
    requires |ss| == |es| + 1 && n <= |es|
  {
    forall k | 0 <= k < n :: NobodyElse(ss[k], es[k]) && |ss[k].messages| <= 200
  }

  lemma {:induction false} AloneAlways(ss: seq<State>, es: seq<Event>, n: nat)
    requires IsRun(ss, es) && n <= |es| && OnlyHere(ss, es, n)
    ensures Alone(ss[n])
  {
    if n == 0 {
      InvAlways(ss, es, 0);
    } else {
      AloneAlways(ss, es, n - 1);
      AloneStep(ss[n - 1], es[n - 1]);
    }
  }

  /**
   * As long as nobody else writes to it and it can be read, the talk stays one conversation from its first message on,
   * whatever answers are lost and however late requests land: once there is a conversation, it is never forked.
   */
  lemma {:induction false} OneConversation(ss: seq<State>, es: seq<Event>, m: nat, n: nat)
    requires IsRun(ss, es) && m <= n <= |es| && OnlyHere(ss, es, n)
    ensures ss[n].chat.from == 0
    ensures ss[m].chat.id.Some? ==> ss[n].chat.id == ss[m].chat.id
    decreases n
  {
    AloneAlways(ss, es, n);
    if n > m {
      OneConversation(ss, es, m, n - 1);
      AloneAlways(ss, es, n - 1);
      AloneStep(ss[n - 1], es[n - 1]);
    }
  }
}
