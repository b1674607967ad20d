/** What a save holds, when one is made, and what becomes of it: every answer it can get, to the end. */
module ChatOutcomes {
  import opened Options
  import opened Characters
  import opened ChatSaving
  import opened ChatSafety
  import opened ChatHarm
  import opened ChatRuns

  // ---- what a save holds -----------------------------------------------------------------------------------------

  /** 8000 characters at most: a longer text is cut there, the spaces before the cut go, and an ellipsis ends it. */
  ghost predicate Clipped(text: string, kept: string) {
    if |text| <= 8000 then kept == text
    else
      && 1 <= |kept| <= 8000 && kept == text[..|kept| - 1] + ['\U{2026}']
      && (forall k | |kept| - 1 <= k < 7999 :: Space(text[k]))
      && (|kept| > 1 ==> !Space(text[|kept| - 2]))
  }

  lemma {:induction false} TrimmedEnd(s: string)
    ensures var t := TrimEnd(s);
      && t <= s && (t != [] ==> !Space(t[|t| - 1]))
      && forall k | |t| <= k < |s| :: Space(s[k])
    decreases |s|
  {
    if s != "" && Space(s[|s| - 1]) { TrimmedEnd(s[..|s| - 1]); }
  }

  lemma ClippedIs(s: string)
    ensures Clipped(s, Clip(s))
  {
    if |s| > 8000 {
      var cut := s[..7999];
      TrimmedEnd(cut);
      var t := TrimEnd(cut);
      assert t == cut[..|t|] == s[..|t|];
      assert forall k | |t| <= k < 7999 :: s[k] == cut[k];
    }
  }

  /** A save holds the newest messages, 200 at most, in their order: nothing of them changes but a text too long. */
  lemma HoldsTheNewest(ms: seq<Msg>)
    ensures |ForSaving(ms)| == if |ms| <= 200 then |ms| else 200
    ensures forall k | 0 <= k < |ForSaving(ms)| ::
      var m, kept := ms[|ms| - |ForSaving(ms)| + k], ForSaving(ms)[k];
      kept == m.(content := kept.content) && Clipped(m.content, kept.content)
  {
    forall k | 0 <= k < |ForSaving(ms)|
      ensures var m, kept := ms[|ms| - |ForSaving(ms)| + k], ForSaving(ms)[k];
        kept == m.(content := kept.content) && Clipped(m.content, kept.content)
    {
      ClippedIs(ms[|ms| - |ForSaving(ms)| + k].content);
    }
  }

  // ---- when one is made ------------------------------------------------------------------------------------------

  /** An answer stands last in the conversation's part, which is not what was last acknowledged. */
  predicate Something(s: State) {
    && s.chat.from < |s.messages| && s.messages[|s.messages| - 1].assistant
    && !(s.chat.id.Some? && s.chat.last == Some(ForSaving(s.messages[s.chat.from..])))
  }

  lemma SomethingIff(s: State)
    requires s.chat.from <= |s.messages|
    ensures Something(s) <==> !NothingNew(s.chat, ForSaving(Slice(s)))
    ensures Something(s) ==> Slice(s) == s.messages[s.chat.from..]
  {
    LastOfSaving(Slice(s));
  }

  /**
   * A save goes out at once, with all of the conversation's part, exactly when none is under way and there is something
   * new; asked for while one is under way, it is remembered.
   */
  lemma SaveSendsIff(s: State)
    requires s.chat.from <= |s.messages|
    ensures var t := Apply(s, Save);
      && t.messages == s.messages && t.server == s.server
      && (t.line != s.line <==> s.phase.Idle? && Something(s))
      && (t.line != s.line ==>
            && t.line == s.line + [t.line[|s.line|]] && t.line[|s.line|].answer == None
            && t.line[|s.line|].request == (
                 if s.chat.id.None? then Post(ForSaving(s.messages[s.chat.from..]))
                 else Put(s.chat.id.value, ForSaving(s.messages[s.chat.from..]), s.chat.updatedAt))
            && t.phase == Saving(|s.line|, ForSaving(s.messages[s.chat.from..]), |s.messages|))
      && (s.phase.Idle? && !Something(s) ==> t.phase.Idle?)
      && t.chat == s.chat.(again := !s.phase.Idle?)
  {
    SomethingIff(s);
    var u := s.(chat := s.chat.(again := false));
    assert Slice(u) == Slice(s);
  }

  // ---- one event after the other ---------------------------------------------------------------------------------

  lemma Once(s: State, e: Event)
    requires Enabled(s, e)
    ensures After(s, [e]) == Some(Apply(s, e))
  {
    First(s, e, []);
    assert [e] + [] == [e];
  }

  lemma Twice(s: State, t: State, e: Event, f: Event)
    requires Enabled(s, e) && t == Apply(s, e) && Enabled(t, f)
    ensures After(s, [e, f]) == Some(Apply(t, f))
  {
    Once(t, f);
    First(s, e, [f]);
    assert [e] + [f] == [e, f];
  }

  lemma Then(s: State, es: seq<Event>, t: State, fs: seq<Event>)
    requires After(s, es) == Some(t) && After(t, fs).Some?
    ensures After(s, es + fs) == After(t, fs)
  {
    Joined(s, es, fs);
  }

  // ---- a request and its answer ----------------------------------------------------------------------------------

  /** The newest request on the line is the save under way, not yet landed. */
  predicate UnderWay(t: State, request: Request) {
    && t.phase.Saving? && t.phase.sent + 1 == |t.line| && !t.chat.again
    && t.line[t.phase.sent].request == request && t.line[t.phase.sent].answer == None && t.phase.kept == request.body
  }

  /** It lands, and its answer is heard. */
  function Lands(n: nat, newId: ConvId): seq<Event> { [Land(n, newId), Hear] }

  lemma Landing(t: State, request: Request, newId: ConvId)
    requires UnderWay(t, request) && newId !in t.server
    ensures Enabled(t, Land(t.phase.sent, newId))
    ensures var u := Apply(t, Land(t.phase.sent, newId));
      && Enabled(u, Hear) && u.line[u.phase.sent].answer == Some(AnswerOf(t.server, request, newId))
      && u == t.(line := u.line, server := Landed(t.server, request, newId)) && |u.line| == |t.line|
  {
  }

  /** The conversation once all up to `upTo` is acknowledged, at version `at`. */
  function AllSaved(id: ConvId, at: nat, kept: seq<Msg>, from: nat, upTo: nat): Chat {
    Chat(Some(id), Some(at), Some(kept), from, upTo, false)
  }

  /** Nothing is under way any more, and the talk is as it was. */
  predicate Ended(t: State, talk: seq<Msg>, server: Server, chat: Chat) {
    t.phase == Idle && t.messages == talk && t.server == server && t.chat == chat
  }

  /** What is on the server when the conversation has one version more. */
  function OneMore(server: Server, id: ConvId, kept: seq<Msg>): Server
    requires id in server
  {
    server[id := Conv(server[id].versions + [kept], false)]
  }

  lemma PostIsAnswered(t: State, request: Request, newId: ConvId)
    requires UnderWay(t, request) && request.Post? && newId !in t.server
    ensures After(t, Lands(t.phase.sent, newId)).Some?
    ensures Ended(After(t, Lands(t.phase.sent, newId)).value, t.messages,
                  t.server[newId := Conv([request.body], false)],
                  AllSaved(newId, 1, request.body, t.chat.from, t.phase.upTo))
  {
    Landing(t, request, newId);
    Twice(t, Apply(t, Land(t.phase.sent, newId)), Land(t.phase.sent, newId), Hear);
  }

  lemma PutIsAnswered(t: State, request: Request, newId: ConvId)
    requires UnderWay(t, request) && request.Put? && newId !in t.server
    requires request.expected.Some? && Live(t.server, request.id, request.expected.value)
    ensures After(t, Lands(t.phase.sent, newId)).Some?
    ensures Ended(After(t, Lands(t.phase.sent, newId)).value, t.messages,
                  OneMore(t.server, request.id, request.body),
                  AllSaved(request.id, request.expected.value + 1, request.body, t.chat.from, t.phase.upTo))
  {
    Landing(t, request, newId);
    Twice(t, Apply(t, Land(t.phase.sent, newId)), Land(t.phase.sent, newId), Hear);
  }

  lemma GoneIsAnswered(t: State, request: Request, newId: ConvId)
    requires UnderWay(t, request) && request.Put? && newId !in t.server
    requires request.id in t.server && t.server[request.id].deleted
    ensures After(t, Lands(t.phase.sent, newId)).Some?
    ensures var v := After(t, Lands(t.phase.sent, newId)).value;
      && UnderWay(v, Post(request.body)) && v.phase.sent == |t.line| && v.phase.upTo == t.phase.upTo
      && v.messages == t.messages && v.server == t.server && v.chat == t.chat
  {
    Landing(t, request, newId);
    Twice(t, Apply(t, Land(t.phase.sent, newId)), Land(t.phase.sent, newId), Hear);
  }

  lemma StaleIsAnswered(t: State, request: Request, newId: ConvId)
    requires UnderWay(t, request) && request.Put? && newId !in t.server && request.expected.Some?
    requires request.id in t.server && !t.server[request.id].deleted
      && request.expected.value != |t.server[request.id].versions|
    ensures After(t, Lands(t.phase.sent, newId)).Some?
    ensures var v := After(t, Lands(t.phase.sent, newId)).value;
      && v.phase == Reading(request.body, t.phase.upTo) && |v.line| == |t.line|
      && v.messages == t.messages && v.server == t.server && v.chat == t.chat
  {
    Landing(t, request, newId);
    Twice(t, Apply(t, Land(t.phase.sent, newId)), Land(t.phase.sent, newId), Hear);
  }

  // ---- every answer, to the end ----------------------------------------------------------------------------------

  /** What the next save of `s` holds. */
  function Next(s: State): seq<Msg>
    requires s.chat.from <= |s.messages|
  {
    ForSaving(s.messages[s.chat.from..])
  }

  /** Nothing is under way, and there is something to save. */
  ghost predicate Ready(s: State) { Good(s) && s.phase.Idle? && Something(s) }

  /** What of that the steps below go by. */
  predicate Set(s: State) { s.chat.from <= s.chat.savedTo <= |s.messages| && s.phase.Idle? && Something(s) }

  lemma ReadyIsSet(s: State)
    requires Ready(s)
    ensures Set(s)
  {
  }

  lemma Goes(s: State)
    requires Set(s)
    ensures After(s, [Save]).Some?
    ensures var t := After(s, [Save]).value;
      && UnderWay(t, if s.chat.id.None? then Post(Next(s)) else Put(s.chat.id.value, Next(s), s.chat.updatedAt))
      && t.phase == Saving(|s.line|, Next(s), |s.messages|)
      && t.messages == s.messages && t.server == s.server && t.chat == s.chat.(again := false)
  {
    SaveSendsIff(s);
    Once(s, Save);
  }

  /** A first save creates the conversation; one over the copy known to the client adds a version to it. */
  lemma GoesThrough(s: State, newId: ConvId)
    requires Ready(s) && newId !in s.server
    requires s.chat.id.None? || Live(s.server, s.chat.id.value, s.chat.updatedAt.value)
    ensures After(s, [Save] + Lands(|s.line|, newId)).Some?
    ensures var t := After(s, [Save] + Lands(|s.line|, newId)).value;
      && t.phase == Idle && t.messages == s.messages
      && if s.chat.id.None? then
           && t.server == s.server[newId := Conv([Next(s)], false)]
           && t.chat == AllSaved(newId, 1, Next(s), s.chat.from, |s.messages|)
         else
           var id, versions := s.chat.id.value, s.server[s.chat.id.value].versions;
           && t.server == WithVersion(s.server, id, Next(s))
           && t.chat == AllSaved(id, |versions| + 1, Next(s), s.chat.from, |s.messages|)
  {
    ReadyIsSet(s);
    Goes(s);
    var t := After(s, [Save]).value;
    if s.chat.id.None? { PostIsAnswered(t, Post(Next(s)), newId); }
    else { PutIsAnswered(t, Put(s.chat.id.value, Next(s), s.chat.updatedAt), newId); }
    Then(s, [Save], t, Lands(|s.line|, newId));
  }

  /** Deleted meanwhile, the conversation is created anew, with all of it. */
  lemma IsMadeAgain(s: State, newId: ConvId)
    requires Ready(s) && newId !in s.server && s.chat.id.Some? && s.server[s.chat.id.value].deleted
    ensures After(s, [Save] + Lands(|s.line|, newId) + Lands(|s.line| + 1, newId)).Some?
    ensures Ended(After(s, [Save] + Lands(|s.line|, newId) + Lands(|s.line| + 1, newId)).value, s.messages,
                  s.server[newId := Conv([Next(s)], false)],
                  AllSaved(newId, 1, Next(s), s.chat.from, |s.messages|))
  {
    ReadyIsSet(s);
    Goes(s);
    var t := After(s, [Save]).value;
    GoneIsAnswered(t, Put(s.chat.id.value, Next(s), s.chat.updatedAt), newId);
    Then(s, [Save], t, Lands(|s.line|, newId));
    var u := After(t, Lands(|s.line|, newId)).value;
    PostIsAnswered(u, Post(Next(s)), newId);
    Then(s, [Save] + Lands(|s.line|, newId), u, Lands(|s.line| + 1, newId));
  }

  /** The conversation holds a version the client does not know. */
  predicate Behind(s: State) {
    && s.chat.id.Some? && s.chat.updatedAt.Some? && s.chat.id.value in s.server && !s.server[s.chat.id.value].deleted
    && s.chat.updatedAt.value < |s.server[s.chat.id.value].versions|
  }

  /** How many versions it holds, and the newest. */
  function Versions(s: State): nat
    requires Behind(s)
  {
    |s.server[s.chat.id.value].versions|
  }

  function Newest(s: State): seq<Msg>
    requires Behind(s)
  {
    s.server[s.chat.id.value].versions[Versions(s) - 1]
  }

  /** The save is refused, and the copy there is read. */
  function Refused(s: State, newId: ConvId): seq<Event> { [Save] + Lands(|s.line|, newId) + [Look] }

  /** The save of `s` was refused, and the copy there read. */
  predicate ReadThere(s: State, u: State)
    requires s.chat.from <= |s.messages| && Behind(s)
  {
    && u.phase == Read(Next(s), |s.messages|, Some(Copy(Newest(s), Versions(s))))
    && u.chat == s.chat.(again := false) && u.messages == s.messages && u.server == s.server
    && |u.line| == |s.line| + 1
  }

  /** The save of `s` was refused. */
  predicate RefusedThere(s: State, u: State)
    requires s.chat.from <= |s.messages|
  {
    && u.phase == Reading(Next(s), |s.messages|) && |u.line| == |s.line| + 1
    && u.chat == s.chat.(again := false) && u.messages == s.messages && u.server == s.server
  }

  lemma UpToTheRefusal(s: State, newId: ConvId)
    requires Set(s) && newId !in s.server && Behind(s)
    ensures After(s, [Save] + Lands(|s.line|, newId)).Some?
    ensures RefusedThere(s, After(s, [Save] + Lands(|s.line|, newId)).value)
  {
    Goes(s);
    var t := After(s, [Save]).value;
    StaleIsAnswered(t, Put(s.chat.id.value, Next(s), s.chat.updatedAt), newId);
    Then(s, [Save], t, Lands(|s.line|, newId));
  }

  lemma Looking(u: State)
    requires u.phase.Reading? && Behind(u)
    ensures After(u, [Look]).Some?
    ensures After(u, [Look]).value
         == u.(phase := Read(u.phase.kept, u.phase.upTo, Some(Copy(Newest(u), Versions(u)))))
  {
    Once(u, Look);
  }

  lemma LooksThere(s: State, u: State)
    requires s.chat.from <= |s.messages| && Behind(s) && RefusedThere(s, u)
    ensures Behind(u) && Newest(u) == Newest(s) && Versions(u) == Versions(s)
    ensures ReadThere(s, u.(phase := Read(u.phase.kept, u.phase.upTo, Some(Copy(Newest(u), Versions(u))))))
  {
  }

  lemma UpToTheCopy(s: State, newId: ConvId)
    requires Set(s) && newId !in s.server && Behind(s)
    ensures After(s, Refused(s, newId)).Some?
    ensures ReadThere(s, After(s, Refused(s, newId)).value)
  {
    UpToTheRefusal(s, newId);
    var u := After(s, [Save] + Lands(|s.line|, newId)).value;
    LooksThere(s, u);
    Looking(u);
    Then(s, [Save] + Lands(|s.line|, newId), u, [Look]);
  }

  /** With something to send the loop goes round. */
  lemma GoesRound(v: State)
    requires v.chat.again && v.chat.from <= |v.messages| && Something(v)
    ensures var t := Loop(v);
      && UnderWay(t, if v.chat.id.None? then Post(Next(v)) else Put(v.chat.id.value, Next(v), v.chat.updatedAt))
      && t.phase == Saving(|v.line|, Next(v), |v.messages|)
      && t.messages == v.messages && t.server == v.server && t.chat == v.chat.(again := false)
  {
    var w := v.(chat := v.chat.(again := false));
    assert Something(w);
    SomethingIff(w);
  }

  /** The refused save of `s` is under way again, over the copy there. */
  predicate GoesOver(s: State, t: State)
    requires s.chat.from <= |s.messages| && Behind(s)
  {
    && UnderWay(t, Put(s.chat.id.value, Next(s), Some(Versions(s))))
    && t.phase == Saving(|s.line| + 1, Next(s), |s.messages|)
    && t.messages == s.messages && t.server == s.server && t.chat.from == s.chat.from
  }

  /** The client goes on over the copy there. */
  predicate Topped(s: State, v: State)
    requires Behind(s)
  {
    && v.messages == s.messages && v.server == s.server && |v.line| == |s.line| + 1
    && v.chat == s.chat.(updatedAt := Some(Versions(s)), again := true)
  }

  lemma Tops(s: State, u: State)
    requires Set(s) && Behind(s) && StartOf(Newest(s), Next(s)) && |Newest(s)| < |Next(s)|
    requires ReadThere(s, u)
    ensures Topped(s, AfterRefused(u))
  {
    StartsIff(Newest(s), Next(s));
  }

  lemma OnTop(s: State, v: State)
    requires Set(s) && Behind(s) && Topped(s, v)
    ensures GoesOver(s, Loop(v))
  {
    assert Next(v) == Next(s);
    GoesRound(v);
  }

  /** The client goes on with what was not acknowledged, if there is any. */
  predicate Forked(s: State, v: State) {
    && v.messages == s.messages && v.server == s.server && |v.line| == |s.line| + 1
    && v.chat == Chat(None, None, None, s.chat.savedTo, s.chat.savedTo, s.chat.savedTo < |s.messages|)
  }

  /** What is decided when the copy there is not the start of the save. */
  lemma Forks(s: State, u: State)
    requires Set(s) && Behind(s) && !StartOf(Newest(s), Next(s)) && ReadThere(s, u)
    ensures Forked(s, AfterRefused(u))
  {
    StartsIff(Newest(s), Next(s));
    if s.chat.savedTo < |s.messages| { assert s.messages[|s.messages| - 1].assistant; }
  }

  /** What was said since the last acknowledged save is under way as a conversation of its own. */
  predicate GoesOff(s: State, t: State)
    requires s.chat.savedTo <= |s.messages|
  {
    && UnderWay(t, Post(ForSaving(s.messages[s.chat.savedTo..])))
    && t.phase == Saving(|s.line| + 1, ForSaving(s.messages[s.chat.savedTo..]), |s.messages|)
    && t.messages == s.messages && t.server == s.server
    && t.chat == Chat(None, None, None, s.chat.savedTo, s.chat.savedTo, false)
  }

  lemma Apart(s: State, v: State)
    requires Set(s) && Forked(s, v)
    ensures s.chat.savedTo < |s.messages| ==> GoesOff(s, Loop(v))
    ensures s.chat.savedTo == |s.messages| ==>
      Ended(Loop(v), s.messages, s.server, Chat(None, None, None, |s.messages|, |s.messages|, false))
  {
    if s.chat.savedTo < |s.messages| { GoesRound(v); }
  }

  lemma ThenCreates(s: State, es: seq<Event>, v: State, newId: ConvId)
    requires s.chat.savedTo <= |s.messages| && newId !in s.server && After(s, es) == Some(v) && GoesOff(s, v)
    ensures After(s, es + Lands(|s.line| + 1, newId)).Some?
    ensures var kept := ForSaving(s.messages[s.chat.savedTo..]);
      Ended(After(s, es + Lands(|s.line| + 1, newId)).value, s.messages, s.server[newId := Conv([kept], false)],
            AllSaved(newId, 1, kept, s.chat.savedTo, |s.messages|))
  {
    PostIsAnswered(v, Post(ForSaving(s.messages[s.chat.savedTo..])), newId);
    Then(s, es, v, Lands(|s.line| + 1, newId));
  }

  /** What follows the look there, from a state that is known by what was read. */
  lemma ThenResolve(s: State, u: State, newId: ConvId)
    requires Set(s) && Behind(s) && newId !in s.server && After(s, Refused(s, newId)) == Some(u)
    requires u.phase.Read?
    ensures After(s, Refused(s, newId) + [Resolve]) == Some(Apply(u, Resolve))
  {
    Once(u, Resolve);
    Then(s, Refused(s, newId), u, [Resolve]);
  }

  lemma Found(s: State, u: State)
    requires Set(s) && Behind(s) && ReadThere(s, u) && StartOf(Newest(s), Next(s)) && |Newest(s)| == |Next(s)|
    ensures Ended(Apply(u, Resolve), s.messages, s.server,
                  AllSaved(s.chat.id.value, Versions(s), Next(s), s.chat.from, |s.messages|))
    ensures |Apply(u, Resolve).line| == |s.line| + 1
  {
    StartsIff(Newest(s), Next(s));
  }

  /** It had landed and only its answer was lost: then it counts as saved, and nothing is sent. */
  lemma IsFoundThere(s: State, newId: ConvId)
    requires Ready(s) && newId !in s.server && Behind(s)
    requires StartOf(Newest(s), Next(s)) && |Newest(s)| == |Next(s)|
    ensures After(s, Refused(s, newId) + [Resolve]).Some?
    ensures Ended(After(s, Refused(s, newId) + [Resolve]).value, s.messages, s.server,
                  AllSaved(s.chat.id.value, Versions(s), Next(s), s.chat.from, |s.messages|))
    ensures |After(s, Refused(s, newId) + [Resolve]).value.line| == |s.line| + 1
  {
    ReadyIsSet(s);
    UpToTheCopy(s, newId);
    var u := After(s, Refused(s, newId)).value;
    ThenResolve(s, u, newId);
    Found(s, u);
  }

  lemma ThenLands(s: State, es: seq<Event>, v: State, newId: ConvId)
    requires s.chat.from <= |s.messages| && Behind(s) && newId !in s.server
    requires After(s, es) == Some(v) && GoesOver(s, v)
    ensures After(s, es + Lands(|s.line| + 1, newId)).Some?
    ensures Ended(After(s, es + Lands(|s.line| + 1, newId)).value, s.messages,
                  OneMore(s.server, s.chat.id.value, Next(s)),
                  AllSaved(s.chat.id.value, Versions(s) + 1, Next(s), s.chat.from, |s.messages|))
  {
    PutIsAnswered(v, Put(s.chat.id.value, Next(s), Some(Versions(s))), newId);
    Then(s, es, v, Lands(|s.line| + 1, newId));
  }

  /** An earlier one had: this one is made on top of it, in the same conversation. */
  lemma IsMadeOnTop(s: State, newId: ConvId)
    requires Ready(s) && newId !in s.server && Behind(s)
    requires StartOf(Newest(s), Next(s)) && |Newest(s)| < |Next(s)|
    ensures After(s, Refused(s, newId) + [Resolve] + Lands(|s.line| + 1, newId)).Some?
    ensures Ended(After(s, Refused(s, newId) + [Resolve] + Lands(|s.line| + 1, newId)).value, s.messages,
                  OneMore(s.server, s.chat.id.value, Next(s)),
                  AllSaved(s.chat.id.value, Versions(s) + 1, Next(s), s.chat.from, |s.messages|))
  {
    ReadyIsSet(s);
    UpToTheCopy(s, newId);
    var u := After(s, Refused(s, newId)).value;
    ThenResolve(s, u, newId);
    Tops(s, u);
    OnTop(s, AfterRefused(u));
    ThenLands(s, Refused(s, newId) + [Resolve], Apply(u, Resolve), newId);
  }

  /**
   * Anything else was written elsewhere and stands: what was said here since the last acknowledged save goes into a
   * conversation of its own, and nothing goes out when there is no such thing.
   */
  lemma GoesApart(s: State, newId: ConvId)
    requires Ready(s) && newId !in s.server && Behind(s) && !StartOf(Newest(s), Next(s))
    ensures After(s, Refused(s, newId) + [Resolve]).Some?
    ensures s.chat.savedTo == |s.messages| ==>
      Ended(After(s, Refused(s, newId) + [Resolve]).value, s.messages, s.server,
            Chat(None, None, None, |s.messages|, |s.messages|, false))
    ensures s.chat.savedTo < |s.messages| ==>
      && After(s, Refused(s, newId) + [Resolve] + Lands(|s.line| + 1, newId)).Some?
      && var kept := ForSaving(s.messages[s.chat.savedTo..]);
         Ended(After(s, Refused(s, newId) + [Resolve] + Lands(|s.line| + 1, newId)).value, s.messages,
               s.server[newId := Conv([kept], false)], AllSaved(newId, 1, kept, s.chat.savedTo, |s.messages|))
  {
    ReadyIsSet(s);
    UpToTheCopy(s, newId);
    var u := After(s, Refused(s, newId)).value;
    ThenResolve(s, u, newId);
    Forks(s, u);
    Apart(s, AfterRefused(u));
    if s.chat.savedTo < |s.messages| { ThenCreates(s, Refused(s, newId) + [Resolve], Apply(u, Resolve), newId); }
  }

  /**
   * Asked for while one was under way, a save follows it: over the version just made, with all said by then, when an
   * answer stands last and that is more than was just saved.
   */
  lemma SaidMeanwhile(s: State, id: ConvId, at: nat)
    requires s.phase.Saving? && s.phase.sent < |s.line| && s.line[s.phase.sent].answer == Some(Saved(id, at))
    requires s.chat.again && s.chat.from <= |s.messages|
    ensures var t := Apply(s, Hear);
      && t.chat == AllSaved(id, at, s.phase.kept, s.chat.from, s.phase.upTo)
      && if s.chat.from < |s.messages| && s.messages[|s.messages| - 1].assistant && Next(s) != s.phase.kept then
           && |t.line| == |s.line| + 1 && t.line[|s.line|].request == Put(id, Next(s), Some(at))
           && t.phase == Saving(|s.line|, Next(s), |s.messages|)
         else t.line == s.line && t.phase.Idle?
  {
    var v := AfterSaved(s, id, at);
    assert v.chat.(again := false) == AllSaved(id, at, s.phase.kept, s.chat.from, s.phase.upTo);
    assert Slice(v.(chat := v.chat.(again := false))) == Slice(s);
    SomethingIff(v.(chat := v.chat.(again := false)));
  }

  /** There is no other way: whatever the server holds, a save of an existing conversation ends in one of these. */
  lemma NoOtherWay(s: State)
    requires Good(s) && s.chat.id.Some?
    ensures s.chat.id.value in s.server && s.chat.updatedAt.Some?
    ensures s.server[s.chat.id.value].deleted || Live(s.server, s.chat.id.value, s.chat.updatedAt.value) || Behind(s)
  {
  }
}
