/**
 * What taking back can do to a talk that is saved: whether some continuation, in which nothing more is taken back,
 * counts more as saved than the talk holds, or puts a save in place of a copy whose words it does not hold.
 */
module ChatHarm {
  import opened Options
  import opened ChatSaving
  import opened ChatSafety

  // ---- continuations ---------------------------------------------------------------------------------------------

  /** Where the events lead, when each may happen in its turn. */
  function After(s: State, es: seq<Event>): Option<State>
    decreases |es|
  {
    if es == [] then Some(s) else if Enabled(s, es[0]) then After(Apply(s, es[0]), es[1..]) else None
  }

  lemma First(s: State, e: Event, es: seq<Event>)
    requires Enabled(s, e)
    ensures After(s, [e] + es) == After(Apply(s, e), es)
  {
    assert ([e] + es)[1..] == es;
  }

  lemma Starts(s: State, es: seq<Event>)
    requires es != [] && After(s, es).Some?
    ensures Enabled(s, es[0]) && After(Apply(s, es[0]), es[1..]) == After(s, es)
  {
  }

  lemma {:induction false} Joined(s: State, first: seq<Event>, rest: seq<Event>)
    requires After(s, first).Some?
    ensures After(s, first + rest) == After(After(s, first).value, rest)
    decreases |first|
  {
    if first == [] {
      assert first + rest == rest;
    } else {
      Starts(s, first);
      var t := Apply(s, first[0]);
      Joined(t, first[1..], rest);
      First(s, first[0], first[1..] + rest);
      assert first + rest == [first[0]] + (first[1..] + rest);
    }
  }

  // ---- harm ------------------------------------------------------------------------------------------------------

  /** More counts as saved than there is: what is said next falls between. */
  predicate Overreaches(s: State) { s.chat.savedTo > |s.messages| }

  /**
   * Request `k`, landing now, goes over a copy whose words do not stand, at their own place, in what it was made from.
   */
  ghost predicate Erases(s: State, k: nat) {
    && k < |s.line| && s.line[k].answer.None? && s.line[k].request.Put? && Accepts(s.server, s.line[k].request)
    && var versions := s.server[s.line[k].request.id].versions;
       versions != [] && !Placed(versions[|versions| - 1], s.line[k].slice, s.line[k].base, s.line[k].long)
  }

  ghost predicate Harmed(s: State) { Overreaches(s) || exists k :: Erases(s, k) }

  ghost predicate NoneTaken(es: seq<Event>) { forall e: Event | e in es :: !e.TakeBack? }

  /** Something that may follow, without anything more being taken back, does harm. */
  ghost predicate Harms(s: State) {
    exists es :: NoneTaken(es) && After(s, es).Some? && Harmed(After(s, es).value)
  }

  lemma NowHarmed(s: State)
    requires Harmed(s)
    ensures Harms(s)
  {
    var none: seq<Event> := [];
    assert NoneTaken(none) && After(s, none) == Some(s);
  }

  lemma HarmsLater(s: State, e: Event)
    requires Enabled(s, e) && !e.TakeBack? && Harms(Apply(s, e))
    ensures Harms(s)
  {
    var es :| NoneTaken(es) && After(Apply(s, e), es).Some? && Harmed(After(Apply(s, e), es).value);
    First(s, e, es);
    assert NoneTaken([e] + es);
  }

  // ---- what keeps the invariant does none ------------------------------------------------------------------------

  lemma {:induction false} GoodThrough(s: State, es: seq<Event>)
    requires Good(s) && NoneTaken(es) && After(s, es).Some?
    ensures Good(After(s, es).value)
    decreases |es|
  {
    if es != [] {
      Starts(s, es);
      assert es[0] in es;
      OneStep(s, es[0]);
      assert forall e | e in es[1..] :: e in es;
      GoodThrough(Apply(s, es[0]), es[1..]);
    }
  }

  lemma GoodIsHarmless(s: State)
    requires Good(s)
    ensures !Harms(s)
  {
    forall es | NoneTaken(es) && After(s, es).Some? ensures !Harmed(After(s, es).value) {
      GoodThrough(s, es);
      var t := After(s, es).value;
      forall k | 0 <= k < |t.line| ensures !Erases(t, k) { assert SentOk(t.server, t.line[k]); }
    }
  }

  // ---- a save that counts though its end was taken back ----------------------------------------------------------

  lemma {:induction false} FreshId(ids: set<ConvId>) returns (id: ConvId)
    ensures forall x | x in ids :: x < id
  {
    if ids == {} { return 0; }
    var x :| x in ids;
    var y := FreshId(ids - {x});
    id := x + y + 1;
    forall z | z in ids ensures z < id {
      if z != x { assert z in ids - {x}; }
    }
  }

  lemma TurnKeeps(s: State)
    ensures Begin(s).messages == Loop(s).messages == s.messages
    ensures Begin(s).chat.savedTo == Loop(s).chat.savedTo == s.chat.savedTo
  {
  }

  lemma SavedOverreaches(s: State)
    requires s.phase.Saving? && s.phase.sent < |s.line| && s.phase.upTo > |s.messages|
    requires s.line[s.phase.sent].answer.Some? && s.line[s.phase.sent].answer.value.Saved?
    ensures Harms(s)
  {
    var answer := s.line[s.phase.sent].answer.value;
    TurnKeeps(AfterSaved(s, answer.id, answer.updatedAt));
    NowHarmed(Apply(s, Hear));
    HarmsLater(s, Hear);
  }

  lemma PostOverreaches(s: State)
    requires s.phase.Saving? && s.phase.sent < |s.line| && s.phase.upTo > |s.messages|
    requires s.line[s.phase.sent].answer.None? && s.line[s.phase.sent].request.Post?
    ensures Harms(s)
  {
    var id := FreshId(s.server.Keys);
    var e := Land(s.phase.sent, id);
    assert id !in s.server;
    SavedOverreaches(Apply(s, e));
    HarmsLater(s, e);
  }

  lemma NotFoundOverreaches(s: State)
    requires s.phase.Saving? && s.phase.sent < |s.line| && s.phase.upTo > |s.messages|
    requires s.line[s.phase.sent].answer == Some(NotFound)
    ensures Harms(s)
  {
    PostOverreaches(Apply(s, Hear));
    HarmsLater(s, Hear);
  }

  lemma PutOverreaches(s: State)
    requires s.phase.Saving? && s.phase.sent < |s.line| && s.phase.upTo > |s.messages|
    requires s.line[s.phase.sent].answer.None? && s.line[s.phase.sent].request.Put?
    requires s.line[s.phase.sent].request.id in s.server
    ensures Harms(s)
  {
    var d := ElsewhereDelete(s.line[s.phase.sent].request.id);
    var t := Apply(s, d);
    var id := FreshId(t.server.Keys);
    var e := Land(s.phase.sent, id);
    assert id !in t.server;
    NotFoundOverreaches(Apply(t, e));
    HarmsLater(t, e);
    HarmsLater(s, d);
  }

  lemma FoundOverreaches(s: State)
    requires s.phase.Read? && s.phase.upTo > |s.messages| && IsThisSave(s.phase.kept, s.phase.theirs)
    requires s.chat.id.Some?
    ensures Harms(s)
  {
    TurnKeeps(AfterRefused(s));
    NowHarmed(Apply(s, Resolve));
    HarmsLater(s, Resolve);
  }

  /** The very save may have been made elsewhere meanwhile. */
  lemma ReadingOverreaches(s: State)
    requires s.phase.Reading? && s.phase.upTo > |s.messages| && s.chat.id.Some? && s.chat.id.value in s.server
      && !Gone(s)
    ensures Harms(s)
  {
    var e := Elsewhere(s.chat.id.value, s.phase.kept);
    var t := Apply(s, e);
    FoundOverreaches(Apply(t, Look));
    HarmsLater(t, Look);
    HarmsLater(s, e);
  }

  lemma ConflictOverreaches(s: State)
    requires s.phase.Saving? && s.phase.sent < |s.line| && s.phase.upTo > |s.messages|
    requires s.line[s.phase.sent].answer == Some(Conflict)
    requires s.chat.id.Some? && s.chat.id.value in s.server && !Gone(s)
    ensures Harms(s)
  {
    ReadingOverreaches(Apply(s, Hear));
    HarmsLater(s, Hear);
  }

  /** A save that can still count does, one way or another. */
  lemma CountingOverreaches(s: State, t: State)
    requires Good(s) && s.phase.Saving? && Counts(s, s.phase.sent) && t == s.(messages := t.messages)
    requires s.phase.upTo > |t.messages|
    ensures Harms(t)
  {
    var x := s.line[s.phase.sent];
    assert SentOk(s.server, x);
    if x.answer.None? {
      if x.request.Post? { PostOverreaches(t); } else { PutOverreaches(t); }
    } else {
      match x.answer.value {
        case Saved(_, _) => SavedOverreaches(t);
        case NotFound => NotFoundOverreaches(t);
        case Conflict => ConflictOverreaches(t);
      }
    }
  }

  // ---- a copy whose end was taken back, saved over ---------------------------------------------------------------

  /** An answer unlike the last message of the copy, and unlike the end of the last save. */
  function Unlike(copy: seq<Msg>, last: Option<seq<Msg>>): Msg {
    var content := if copy != [] && copy[|copy| - 1].content == "a" then "b" else "a";
    Msg(true, content, [], [], if last.Some? && last.value != [] then last.value[|last.value| - 1].rest + 1 else 0)
  }

  /** The talk ends where the copy does, but in other words, and the next save is about to go over it. */
  ghost predicate Strayed(s: State, copy: seq<Msg>) {
    && s.chat.id.Some? && s.chat.updatedAt.Some? && Live(s.server, s.chat.id.value, s.chat.updatedAt.value)
    && s.server[s.chat.id.value].versions != []
    && s.server[s.chat.id.value].versions[|s.server[s.chat.id.value].versions| - 1] == copy != []
    && s.chat.from < s.held == |s.messages| && s.messages[|s.messages| - 1] == Unlike(copy, s.chat.last)
  }

  lemma UnlikeIsNew(copy: seq<Msg>, last: Option<seq<Msg>>, slice: seq<Msg>)
    requires copy != [] && slice != [] && slice[|slice| - 1] == Unlike(copy, last)
    ensures !Placed(copy, slice, |slice|, true) && !Placed(copy, slice, |slice|, false)
    ensures ForSaving(slice) != [] && ForSaving(slice)[|ForSaving(slice)| - 1].assistant
      && last != Some(ForSaving(slice))
  {
    var m, kept := Unlike(copy, last), ForSaving(slice);
    assert kept[|kept| - 1] == KeptMsg(m) && KeptMsg(m).content == m.content;
    assert slice[|slice| - |copy| + (|copy| - 1)] == m || |copy| > |slice|;
    assert WordsOf(copy[|copy| - 1]) != Said(m);
  }

  lemma StrayedErases(s: State, copy: seq<Msg>)
    requires Strayed(s, copy)
    ensures Harms(Begin(s))
  {
    var t := s.(chat := s.chat.(again := false));
    var slice := s.messages[s.chat.from..];
    assert Slice(t) == slice && BaseIn(t) == |slice|;
    UnlikeIsNew(copy, s.chat.last, slice);
    var u := Begin(s);
    assert u == Send(t, slice);
    assert Erases(u, |s.line|);
    NowHarmed(u);
  }

  lemma IdleErases(s: State, t: State)
    requires Good(s) && s.phase.Idle? && t == s.(messages := t.messages)
    requires |t.messages| + 1 == Known(s)
    ensures Harms(t)
  {
    var versions := s.server[s.chat.id.value].versions;
    var copy := versions[|versions| - 1];
    var m := Unlike(copy, s.chat.last);
    var u := Apply(t, Say(m));
    assert Placed(copy, Slice(s), BaseIn(s), s.long);
    assert Strayed(u, copy);
    StrayedErases(u, copy);
    HarmsLater(u, Save);
    HarmsLater(t, Say(m));
  }

  lemma SavingErases(s: State, t: State)
    requires Good(s) && s.phase.Saving? && t == s.(messages := t.messages)
    requires |t.messages| + 1 == Known(s)
    ensures Harms(t)
  {
    OneStep(s, GiveUp);
    IdleErases(Apply(s, GiveUp), Apply(t, GiveUp));
    HarmsLater(t, GiveUp);
  }

  lemma TakingUpErases(s: State, t: State)
    requires Good(s) && s.phase.Read? && TakesUp(s, s.phase.kept, s.phase.theirs) && t == s.(messages := t.messages)
    requires s.phase.theirs.value.messages != []
    requires |t.messages| + 1 == EndOf(s.phase.kept, s.phase.upTo, s.phase.theirs.value)
    ensures Harms(t)
  {
    var copy := s.phase.theirs.value.messages;
    var m := Unlike(copy, s.chat.last);
    var u := Apply(t, Say(m));
    var v := AfterRefused(u);
    assert Strayed(v, copy);
    assert v.chat.again;
    StrayedErases(v, copy);
    HarmsLater(u, Resolve);
    HarmsLater(t, Say(m));
  }

  // ---- exactly then ----------------------------------------------------------------------------------------------

  lemma NeedsAreThere(s: State)
    requires Good(s)
    ensures Needs(s) <= |s.messages|
  {
    if s.phase.Reading? || s.phase.Read? { OvertakenIsNotKnown(s); }
  }

  /**
   * Taking back what stands last can do harm, in what may follow, exactly when that is counted as saved; or is held by
   * a save under way that can still count; or by a copy that will be saved over.
   */
  lemma TakingBackHarmsIff(s: State)
    requires Good(s)
    ensures Harms(Apply(s, TakeBack)) <==> !KeepsNeeded(s, TakeBack)
  {
    var t := Apply(s, TakeBack);
    if KeepsNeeded(s, TakeBack) {
      OneStep(s, TakeBack);
      GoodIsHarmless(t);
    } else {
      NeedsAreThere(s);
      if s.chat.savedTo == |s.messages| { NowHarmed(t); }
      else if s.phase.Idle? { IdleErases(s, t); }
      else if s.phase.Saving? {
        if Known(s) == |s.messages| { SavingErases(s, t); } else { CountingOverreaches(s, t); }
      }
      else if s.phase.Reading? { ReadingOverreaches(t); }
      else if IsThisSave(s.phase.kept, s.phase.theirs) { FoundOverreaches(t); }
      else { TakingUpErases(s, t); }
    }
  }
}
