/** What runs of saves keep to: nothing said elsewhere is saved over, and nothing said here falls between. */
module ChatSafety {
  import opened Options
  import opened ChatSaving

  // ---- words -----------------------------------------------------------------------------------------------------

  function Said(m: Msg): Words { WordsOf(KeptMsg(m)) }

  /** `kept` is, by its words, the last of what stands in `messages` from `from` up to `upTo`, 200 at most. */
  ghost predicate KeptFrom(kept: seq<Msg>, messages: seq<Msg>, from: nat, upTo: nat) {
    && from <= upTo <= |messages|
    && |kept| == upTo - from - Window(upTo - from)
    && forall k | 0 <= k < |kept| :: WordsOf(kept[k]) == Said(messages[upTo - |kept| + k])
  }

  /**
   * Every message of `copy` stands, by its words, in `slice`, in one run that ends at `base`; from its start, in a
   * conversation never over 200.
   */
  ghost predicate Placed(copy: seq<Msg>, slice: seq<Msg>, base: nat, long: bool) {
    copy == [] ||
    (|copy| <= base <= |slice| && (!long ==> |copy| == base)
     && forall k | 0 <= k < |copy| :: WordsOf(copy[k]) == Said(slice[base - |copy| + k]))
  }

  lemma PlacedInMore(copy: seq<Msg>, slice: seq<Msg>, more: seq<Msg>, base: nat, long: bool, longer: bool)
    requires Placed(copy, slice, base, long) && (long ==> longer) && (copy != [] ==> base <= |more|)
    requires forall k | 0 <= k < base && k < |slice| && k < |more| :: Said(slice[k]) == Said(more[k])
    ensures Placed(copy, more, base, longer)
  {
  }

  /** A copy whose marks start `kept` stands in the talk, and ends where its length says. */
  lemma KeptIsPlaced(kept: seq<Msg>, theirs: seq<Msg>, messages: seq<Msg>, from: nat, upTo: nat, long: bool)
    requires KeptFrom(kept, messages, from, upTo) && (upTo - from > MESSAGES_MAX ==> long)
    requires SameMarks(theirs, kept)
    ensures from <= upTo - |kept| + |theirs| <= upTo
    ensures Placed(theirs, messages[from..], upTo - |kept| + |theirs| - from, long)
  {
    var slice, a := messages[from..], upTo - |kept| - from;
    forall k | 0 <= k < |theirs| ensures WordsOf(theirs[k]) == Said(slice[a + k]) {
      assert Marks(theirs[k]) == Marks(kept[k]);
    }
  }

  lemma SavingIsKept(messages: seq<Msg>, from: nat, upTo: nat)
    requires from <= upTo <= |messages|
    ensures KeptFrom(ForSaving(messages[from..upTo]), messages, from, upTo)
  {
  }

  // ---- the invariant ---------------------------------------------------------------------------------------------

  ghost predicate Version(server: Server, id: ConvId, at: nat) {
    id in server && 1 <= at <= |server[id].versions|
  }

  ghost predicate Bounds(s: State) {
    && s.chat.from <= s.chat.savedTo <= |s.messages|
    && (s.chat.id.None? ==> s.chat.from == s.chat.savedTo)
  }

  /** A save made from this version would go through. */
  predicate Live(server: Server, id: ConvId, at: nat) {
    id in server && !server[id].deleted && |server[id].versions| == at
  }

  /**
   * While the next save can go through over the copy it is made from, that copy holds nothing but this conversation's
   * own words, up to `held`.
   */
  ghost predicate Base(s: State) {
    && (s.chat.id.Some? <==> s.chat.updatedAt.Some?)
    && (s.chat.id.Some? ==>
          var id, at := s.chat.id.value, s.chat.updatedAt.value;
          && Version(s.server, id, at)
          && (Live(s.server, id, at) ==> Placed(s.server[id].versions[at - 1], Slice(s), BaseIn(s), s.long)))
  }

  ghost predicate SentOk(server: Server, x: Sent) {
    && x.request.body == ForSaving(x.slice)
    && (x.request.Put? ==>
          && x.request.expected.Some? && Version(server, x.request.id, x.request.expected.value)
          && (Live(server, x.request.id, x.request.expected.value) ==>
                Placed(server[x.request.id].versions[x.request.expected.value - 1], x.slice, x.base, x.long)))
    && (x.answer.Some? ==> AnswerOk(server, x.request, x.answer.value))
  }

  /** What is answered holds of the server for good: the version is there, or the known one was overtaken. */
  ghost predicate AnswerOk(server: Server, r: Request, answer: Answer) {
    match answer
    case Saved(id, at) => Version(server, id, at) && server[id].versions[at - 1] == r.body
    case Conflict => r.Put? && r.expected.Some? && r.id in server && r.expected.value < |server[r.id].versions|
    case NotFound => r.Put?
  }

  ghost predicate Line(s: State) {
    forall k | 0 <= k < |s.line| :: SentOk(s.server, s.line[k])
  }

  ghost predicate InHand(s: State, kept: seq<Msg>, upTo: nat) {
    KeptFrom(kept, s.messages, s.chat.from, upTo) && (upTo - s.chat.from > MESSAGES_MAX ==> s.long)
  }

  /** The conversation was deleted: no copy of it is found any more. */
  predicate Gone(s: State) {
    s.chat.id.Some? && s.chat.id.value in s.server && s.server[s.chat.id.value].deleted
  }

  /** The save on its way can still be acknowledged, or found to have landed. */
  predicate Counts(s: State, n: nat) {
    n < |s.line| && (s.line[n].answer == Some(Conflict) ==> !Gone(s))
  }

  /** The version the conversation knows was overtaken. */
  predicate Overtaken(s: State) {
    && s.chat.id.Some? && s.chat.updatedAt.Some? && s.chat.id.value in s.server
    && s.chat.updatedAt.value < |s.server[s.chat.id.value].versions|
  }

  /** The copy read will be taken up and saved over, and that save can still go through. */
  predicate TakesUp(s: State, kept: seq<Msg>, theirs: Option<Copy>) {
    && !IsThisSave(kept, theirs) && IsEarlierSave(s.chat, kept, theirs) && s.chat.id.Some?
    && Live(s.server, s.chat.id.value, theirs.value.updatedAt)
  }

  /** A save under way holds what the talk does, for as long as it can still count. */
  ghost predicate Flight(s: State) {
    match s.phase
    case Idle => true
    case Saving(n, kept, upTo) =>
      && n < |s.line| && s.line[n].request.body == kept && |kept| <= upTo
      && (Counts(s, n) ==> InHand(s, kept, upTo))
      && (s.line[n].request.Put? ==>
            s.chat.id == Some(s.line[n].request.id) && s.chat.updatedAt == s.line[n].request.expected)
    case Reading(kept, upTo) => Overtaken(s) && |kept| <= upTo && (!Gone(s) ==> InHand(s, kept, upTo))
    case Read(kept, upTo, theirs) =>
      && Overtaken(s) && |kept| <= upTo
      && (theirs.Some? ==>
            && Version(s.server, s.chat.id.value, theirs.value.updatedAt)
            && theirs.value.updatedAt > s.chat.updatedAt.value
            && s.server[s.chat.id.value].versions[theirs.value.updatedAt - 1] == theirs.value.messages)
      && (IsThisSave(kept, theirs) ==> InHand(s, kept, upTo))
      && (TakesUp(s, kept, theirs) ==>
            Placed(theirs.value.messages, Slice(s), EndIn(s, EndOf(kept, upTo, theirs.value)), s.long))
  }

  function EndIn(s: State, end: nat): nat { if end >= s.chat.from then end - s.chat.from else 0 }

  /** What was taken for the conversation's own is there, and its marks are the start of the save it was taken for. */
  ghost predicate Own(server: Server, t: Taking) {
    Version(server, t.id, t.at) && SameMarks(server[t.id].versions[t.at - 1], t.kept)
  }

  ghost predicate AllOwn(s: State) {
    forall k | 0 <= k < |s.taken| :: Own(s.server, s.taken[k])
  }

  /** Message `i` stands, word for word and at its own place, in the version `t`. */
  ghost predicate StandsIn(server: Server, t: Taking, messages: seq<Msg>, i: nat) {
    Version(server, t.id, t.at) && i < |messages| &&
    var copy := server[t.id].versions[t.at - 1];
    t.end - |copy| <= i < t.end && |copy| <= t.end && WordsOf(copy[i - (t.end - |copy|)]) == Said(messages[i])
  }

  /**
   * Message `i` stands at its own place in a version that was acknowledged to the client, or that it took for its own.
   */
  ghost predicate Stands(s: State, i: nat) {
    exists k :: 0 <= k < |s.taken| && StandsIn(s.server, s.taken[k], s.messages, i)
  }

  ghost predicate Recorded(s: State) {
    forall i | 0 <= i < s.chat.savedTo && !Skipped(s.skipped, i) :: Stands(s, i)
  }

  ghost predicate Traced(s: State, id: ConvId, at: nat) {
    exists k :: 0 <= k < |s.taken| && s.taken[k].id == id && s.taken[k].at == at
  }

  /** Every save over a copy is, or was, made from one of the versions taken. */
  ghost predicate AllTraced(s: State) {
    && (s.chat.id.Some? && s.chat.updatedAt.Some? ==> Traced(s, s.chat.id.value, s.chat.updatedAt.value))
    && (forall k | 0 <= k < |s.line| && s.line[k].request.Put? && s.line[k].request.expected.Some? ::
          Traced(s, s.line[k].request.id, s.line[k].request.expected.value))
  }

  /** Everything but the phase, which a step is about to set. */
  ghost predicate Settled(s: State) {
    Bounds(s) && Base(s) && Line(s) && Recorded(s) && AllOwn(s) && AllTraced(s)
  }

  ghost predicate Good(s: State) { Settled(s) && Flight(s) }

  // ---- what the server does --------------------------------------------------------------------------------------

  ghost predicate Grows(a: Server, b: Server) {
    forall id | id in a :: id in b && a[id].versions <= b[id].versions && (a[id].deleted ==> b[id].deleted)
  }

  /** What was overtaken or deleted stays so. */
  lemma LivedBefore(a: Server, b: Server, id: ConvId, at: nat)
    requires Grows(a, b) && Version(a, id, at) && Live(b, id, at)
    ensures Live(a, id, at)
  {
  }

  lemma GrownVersion(a: Server, b: Server, id: ConvId, at: nat)
    requires Grows(a, b) && Version(a, id, at)
    ensures Version(b, id, at) && b[id].versions[at - 1] == a[id].versions[at - 1]
  {
  }

  lemma GrownSent(a: Server, b: Server, x: Sent)
    requires Grows(a, b) && SentOk(a, x)
    ensures SentOk(b, x)
  {
    if x.request.Put? {
      GrownVersion(a, b, x.request.id, x.request.expected.value);
      if Live(b, x.request.id, x.request.expected.value) { LivedBefore(a, b, x.request.id, x.request.expected.value); }
    }
    if x.answer.Some? && x.answer.value.Saved? { GrownVersion(a, b, x.answer.value.id, x.answer.value.updatedAt); }
  }

  /** Versions are only added, to the server and to those taken. */
  lemma StillStands(s: State, t: State, i: nat)
    requires Stands(s, i) && Grows(s.server, t.server) && s.taken <= t.taken
    requires i < |t.messages| && Said(t.messages[i]) == Said(s.messages[i])
    ensures Stands(t, i)
  {
    var k :| 0 <= k < |s.taken| && StandsIn(s.server, s.taken[k], s.messages, i);
    GrownVersion(s.server, t.server, s.taken[k].id, s.taken[k].at);
    assert t.taken[k] == s.taken[k] && StandsIn(t.server, t.taken[k], t.messages, i);
  }

  lemma StillRecorded(s: State, t: State)
    requires Recorded(s) && Grows(s.server, t.server) && s.taken <= t.taken
    requires t.skipped == s.skipped && t.chat.savedTo == s.chat.savedTo <= |t.messages|
      && s.chat.savedTo <= |s.messages|
    requires forall i | 0 <= i < s.chat.savedTo :: Said(t.messages[i]) == Said(s.messages[i])
    ensures Recorded(t)
  {
    forall i | 0 <= i < t.chat.savedTo && !Skipped(t.skipped, i) ensures Stands(t, i) { StillStands(s, t, i); }
  }

  lemma StillTraced(s: State, t: State, id: ConvId, at: nat)
    requires Traced(s, id, at) && s.taken <= t.taken
    ensures Traced(t, id, at)
  {
    var k :| 0 <= k < |s.taken| && s.taken[k].id == id && s.taken[k].at == at;
    assert t.taken[k] == s.taken[k];
  }

  lemma BaseInMore(s: State, server: Server)
    requires Base(s) && Grows(s.server, server)
    ensures Base(s.(server := server))
  {
    if s.chat.id.Some? {
      var id, at := s.chat.id.value, s.chat.updatedAt.value;
      GrownVersion(s.server, server, id, at);
      if Live(server, id, at) { LivedBefore(s.server, server, id, at); }
    }
  }

  lemma FlightInMore(s: State, server: Server)
    requires Flight(s) && Base(s) && Grows(s.server, server)
    ensures Flight(s.(server := server))
  {
    var t := s.(server := server);
    if s.phase.Read? && s.phase.theirs.Some? {
      GrownVersion(s.server, server, s.chat.id.value, s.phase.theirs.value.updatedAt);
      if TakesUp(t, s.phase.kept, s.phase.theirs) {
        LivedBefore(s.server, server, s.chat.id.value, s.phase.theirs.value.updatedAt);
      }
    }
    assert Gone(s) ==> Gone(t);
  }

  lemma ServerMoves(s: State, server: Server)
    requires Good(s) && Grows(s.server, server)
    ensures Good(s.(server := server))
  {
    var t := s.(server := server);
    BaseInMore(s, server);
    FlightInMore(s, server);
    forall k | 0 <= k < |s.line| ensures SentOk(server, t.line[k]) { GrownSent(s.server, server, s.line[k]); }
    forall k | 0 <= k < |s.taken| ensures Own(server, t.taken[k]) {
      assert Own(s.server, s.taken[k]);
      GrownVersion(s.server, server, s.taken[k].id, s.taken[k].at);
    }
    StillRecorded(s, t);
    SameTraces(s, t);
  }

  /** Being traced depends on the line's requests, the versions taken and the one known alone. */
  lemma SameTraces(s: State, t: State)
    requires AllTraced(s) && s.taken <= t.taken && |t.line| == |s.line|
    requires forall k | 0 <= k < |s.line| :: t.line[k].request == s.line[k].request
    requires t.chat.id == s.chat.id && t.chat.updatedAt == s.chat.updatedAt
    ensures AllTraced(t)
  {
    if t.chat.id.Some? && t.chat.updatedAt.Some? { StillTraced(s, t, t.chat.id.value, t.chat.updatedAt.value); }
    forall k | 0 <= k < |t.line| && t.line[k].request.Put? && t.line[k].request.expected.Some?
      ensures Traced(t, t.line[k].request.id, t.line[k].request.expected.value)
    {
      StillTraced(s, t, s.line[k].request.id, s.line[k].request.expected.value);
    }
  }

  // ---- what the talk does ----------------------------------------------------------------------------------------

  function Max(a: nat, b: nat): nat { if a >= b then a else b }

  /** How far the copy that the next save goes over reaches into the talk, while that save can go through. */
  function Known(s: State): nat {
    if s.chat.id.Some? && s.chat.updatedAt.Some? && Live(s.server, s.chat.id.value, s.chat.updatedAt.value)
       && s.server[s.chat.id.value].versions != []
       && s.server[s.chat.id.value].versions[|s.server[s.chat.id.value].versions| - 1] != []
    then s.held else 0
  }

  /**
   * How much of the talk must stay: what counts as saved; what a save under way holds, while it can still count; and
   * what the copy there holds that will be saved over.
   */
  function Needs(s: State): nat {
    Max(s.chat.savedTo,
      match s.phase
      case Idle => Known(s)
      case Saving(n, _, upTo) => Max(Known(s), if Counts(s, n) then upTo else 0)
      case Reading(_, upTo) => if Gone(s) then 0 else upTo
      case Read(kept, upTo, theirs) =>
        if IsThisSave(kept, theirs) then upTo
        else if TakesUp(s, kept, theirs) && theirs.value.messages != [] then EndOf(kept, upTo, theirs.value)
        else 0)
  }

  lemma BaseMoves(s: State, messages: seq<Msg>)
    requires Base(s) && s.chat.from <= |s.messages| && s.chat.from <= |messages| && Known(s) <= |messages|
    requires forall i | 0 <= i < Known(s) && i < |s.messages| :: Said(messages[i]) == Said(s.messages[i])
    ensures Base(s.(messages := messages))
  {
    var t := s.(messages := messages);
    if s.chat.id.Some? && Live(s.server, s.chat.id.value, s.chat.updatedAt.value) {
      var copy := s.server[s.chat.id.value].versions[s.chat.updatedAt.value - 1];
      if copy != [] { PlacedInMore(copy, Slice(s), Slice(t), BaseIn(s), s.long, s.long); }
    }
  }

  lemma ReadMoves(s: State, messages: seq<Msg>)
    requires Flight(s) && s.phase.Read? && s.chat.from <= |s.messages| && s.chat.from <= |messages|
    requires Needs(s) <= |messages|
    requires forall i | 0 <= i < Needs(s) && i < |s.messages| :: Said(messages[i]) == Said(s.messages[i])
    ensures Flight(s.(messages := messages))
  {
    var t, kept, upTo, theirs := s.(messages := messages), s.phase.kept, s.phase.upTo, s.phase.theirs;
    if TakesUp(s, kept, theirs) && theirs.value.messages != [] {
      var end := EndIn(s, EndOf(kept, upTo, theirs.value));
      PlacedInMore(theirs.value.messages, Slice(s), Slice(t), end, s.long, s.long);
    }
  }

  lemma FlightMoves(s: State, messages: seq<Msg>)
    requires Flight(s) && s.chat.from <= |s.messages| && s.chat.from <= |messages| && Needs(s) <= |messages|
    requires forall i | 0 <= i < Needs(s) && i < |s.messages| :: Said(messages[i]) == Said(s.messages[i])
    ensures Flight(s.(messages := messages))
  {
    if s.phase.Read? { ReadMoves(s, messages); }
  }

  /** A save once refused is made from a version no save can go over any more. */
  lemma OvertakenIsNotKnown(s: State)
    requires Overtaken(s)
    ensures Known(s) == 0 && !Live(s.server, s.chat.id.value, s.chat.updatedAt.value)
  {
  }

  lemma TalkMoves(s: State, messages: seq<Msg>)
    requires Good(s) && Needs(s) <= |messages|
    requires forall i | 0 <= i < Needs(s) && i < |s.messages| :: Said(messages[i]) == Said(s.messages[i])
    ensures Good(s.(messages := messages))
  {
    var t := s.(messages := messages);
    if s.phase.Reading? || s.phase.Read? { OvertakenIsNotKnown(s); }
    assert Known(s) <= Needs(s);
    BaseMoves(s, messages);
    StillRecorded(s, t);
    SameTraces(s, t);
    FlightMoves(s, messages);
  }

  /** What is taken back lies past all that must stay. */
  predicate KeepsNeeded(s: State, e: Event) {
    e.TakeBack? ==> s.messages == [] || |s.messages| > Needs(s)
  }

  // ---- the client's own steps ------------------------------------------------------------------------------------

  lemma LineAdds(s: State, x: Sent)
    requires Line(s) && SentOk(s.server, x)
    ensures Line(s.(line := s.line + [x]))
  {
  }

  /** A request more, made from the version the conversation knows. */
  lemma OneMoreTraced(s: State, t: State)
    requires AllTraced(s) && t.taken == s.taken && t.chat == s.chat
    requires |t.line| == |s.line| + 1 && t.line[..|s.line|] == s.line
    requires t.line[|s.line|].request.Put? ==>
      s.chat.id == Some(t.line[|s.line|].request.id) && s.chat.updatedAt == t.line[|s.line|].request.expected
    ensures AllTraced(t)
  {
    forall k | 0 <= k < |t.line| && t.line[k].request.Put? && t.line[k].request.expected.Some?
      ensures Traced(t, t.line[k].request.id, t.line[k].request.expected.value)
    {
      if k < |s.line| {
        assert t.line[k] == s.line[k];
        StillTraced(s, t, s.line[k].request.id, s.line[k].request.expected.value);
      }
    }
    if t.chat.id.Some? && t.chat.updatedAt.Some? { StillTraced(s, t, t.chat.id.value, t.chat.updatedAt.value); }
  }

  /** Longer than 200 or not, the copy known stays in place. */
  lemma BaseWhenLong(s: State, long: bool)
    requires Bounds(s) && Base(s) && (s.long ==> long)
    ensures Base(s.(long := long))
  {
    if s.chat.id.Some? && Live(s.server, s.chat.id.value, s.chat.updatedAt.value) {
      var copy := s.server[s.chat.id.value].versions[s.chat.updatedAt.value - 1];
      PlacedInMore(copy, Slice(s), Slice(s), BaseIn(s), s.long, long);
    }
  }

  lemma SentIsInHand(s: State)
    requires s.chat.from <= |s.messages|
    ensures InHand(Send(s, s.messages[s.chat.from..]), ForSaving(s.messages[s.chat.from..]), |s.messages|)
  {
    assert s.messages[s.chat.from..] == s.messages[s.chat.from..|s.messages|];
    SavingIsKept(s.messages, s.chat.from, |s.messages|);
  }

  lemma SendKeeps(s: State)
    requires Settled(s)
    ensures Good(Send(s, s.messages[s.chat.from..]))
  {
    var slice := s.messages[s.chat.from..];
    var t := Send(s, slice);
    var x := t.line[|s.line|];
    BaseWhenLong(s, t.long);
    assert Slice(s) == slice;
    assert SentOk(s.server, x);
    LineAdds(s, x);
    StillRecorded(s, t);
    OneMoreTraced(s, t);
    SentIsInHand(s);
    assert Bounds(t) && Base(t) && Line(t) && AllOwn(t);
  }

  /** A change to what nothing here depends on. */
  lemma LooksSame(s: State, t: State)
    requires Settled(s) && t.messages == s.messages && t.line == s.line && t.server == s.server
      && t.skipped == s.skipped
    requires t.chat.(again := s.chat.again) == s.chat && t.long == s.long && t.held == s.held && t.taken == s.taken
    ensures Settled(t)
  {
    StillRecorded(s, t);
    SameTraces(s, t);
  }

  lemma BeginKeeps(s: State)
    requires Settled(s)
    ensures Good(Begin(s))
  {
    var t := s.(chat := s.chat.(again := false));
    LooksSame(s, t);
    if NothingNew(t.chat, ForSaving(Slice(t))) {
      LooksSame(t, t.(phase := Idle));
    } else {
      SendKeeps(t);
    }
  }

  lemma LoopKeeps(s: State)
    requires Settled(s)
    ensures Good(Loop(s))
  {
    if s.chat.again { BeginKeeps(s); } else { LooksSame(s, s.(phase := Idle)); }
  }

  /** The version is, by its marks, all of the save `kept` up to `upTo`. */
  ghost predicate IsAll(server: Server, x: Taking, kept: seq<Msg>, upTo: nat) {
    Version(server, x.id, x.at) && x.end == upTo && |server[x.id].versions[x.at - 1]| == |kept|
    && SameMarks(server[x.id].versions[x.at - 1], kept)
  }

  /** What a save holds stands in the version it became, or was found to be. */
  lemma SavedStands(t: State, from: nat, kept: seq<Msg>, upTo: nat, i: nat)
    requires KeptFrom(kept, t.messages, from, upTo) && t.taken != []
    requires IsAll(t.server, t.taken[|t.taken| - 1], kept, upTo)
    requires upTo - |kept| <= i < upTo
    ensures Stands(t, i)
  {
    var x := t.taken[|t.taken| - 1];
    var copy, k := t.server[x.id].versions[x.at - 1], i - (upTo - |kept|);
    assert Marks(copy[k]) == Marks(kept[k]);
    assert StandsIn(t.server, x, t.messages, i);
  }

  lemma SavedIsRecorded(s: State, t: State, kept: seq<Msg>, upTo: nat)
    requires Settled(s) && KeptFrom(kept, s.messages, s.chat.from, upTo)
    requires t.messages == s.messages && t.server == s.server && |t.taken| == |s.taken| + 1 && s.taken <= t.taken
    requires t.skipped == s.skipped + LeftOut(s, kept, upTo) && t.chat.savedTo == upTo
    requires IsAll(t.server, t.taken[|s.taken|], kept, upTo)
    ensures Recorded(t)
  {
    forall i | 0 <= i < upTo && !Skipped(t.skipped, i) ensures Stands(t, i) {
      if i >= upTo - |kept| {
        SavedStands(t, s.chat.from, kept, upTo, i);
      } else {
        assert forall g | g in s.skipped + LeftOut(s, kept, upTo) :: g in t.skipped;
        assert s.chat.savedTo < upTo - |kept| ==> Gap(s.chat.savedTo, upTo - |kept|) in LeftOut(s, kept, upTo);
        StillStands(s, t, i);
      }
    }
  }

  /** A version more is taken, and the conversation now knows that one. */
  lemma NewBaseTraced(s: State, t: State, x: Taking)
    requires AllTraced(s) && t.line == s.line && t.taken == s.taken + [x]
    requires t.chat.id == Some(x.id) && t.chat.updatedAt == Some(x.at)
    ensures AllTraced(t)
  {
    assert t.taken[|s.taken|] == x;
    forall k | 0 <= k < |t.line| && t.line[k].request.Put? && t.line[k].request.expected.Some?
      ensures Traced(t, t.line[k].request.id, t.line[k].request.expected.value)
    {
      StillTraced(s, t, s.line[k].request.id, s.line[k].request.expected.value);
    }
  }

  lemma SavedKeeps(s: State, id: ConvId, at: nat)
    requires Good(s) && s.phase.Saving? && s.line[s.phase.sent].answer == Some(Saved(id, at))
    ensures Settled(AfterSaved(s, id, at))
  {
    var kept, upTo, t := s.phase.kept, s.phase.upTo, AfterSaved(s, id, at);
    assert SentOk(s.server, s.line[s.phase.sent]);
    KeptIsPlaced(kept, kept, s.messages, s.chat.from, upTo, s.long);
    SavedIsRecorded(s, t, kept, upTo);
    NewBaseTraced(s, t, Taking(id, at, upTo, kept));
    TakenIsOwn(s, t);
  }

  lemma GoneFlies(s: State)
    requires Flight(s) && Enabled(s, Hear) && s.line[s.phase.sent].answer == Some(NotFound)
    ensures Flight(Apply(s, Hear))
  {
  }

  /** The conversation was deleted on the web: the same save goes out again, as a new one. */
  lemma GoneKeeps(s: State)
    requires Good(s) && Enabled(s, Hear) && s.line[s.phase.sent].answer == Some(NotFound)
    ensures Good(Apply(s, Hear))
  {
    var t := Apply(s, Hear);
    var x := t.line[|s.line|];
    assert SentOk(s.server, s.line[s.phase.sent]);
    assert SentOk(s.server, x);
    LineAdds(s, x);
    StillRecorded(s, t);
    OneMoreTraced(s, t);
    GoneFlies(s);
    assert Slice(t) == Slice(s) && BaseIn(t) == BaseIn(s);
    assert Bounds(t) && Base(t) && Line(t) && AllOwn(t);
  }

  lemma HearKeeps(s: State)
    requires Good(s) && Enabled(s, Hear)
    ensures Good(Apply(s, Hear))
  {
    var n := s.phase.sent;
    assert SentOk(s.server, s.line[n]);
    match s.line[n].answer.value {
      case Saved(id, at) =>
        SavedKeeps(s, id, at);
        LoopKeeps(AfterSaved(s, id, at));
      case Conflict => LooksSame(s, Apply(s, Hear));
      case NotFound => GoneKeeps(s);
    }
  }

  /** The copy there taken as the conversation's own: it is this save. */
  lemma FoundKeeps(s: State)
    requires Good(s) && s.phase.Read? && IsThisSave(s.phase.kept, s.phase.theirs)
    ensures Settled(AfterRefused(s))
  {
    var kept, upTo, theirs, t := s.phase.kept, s.phase.upTo, s.phase.theirs.value, AfterRefused(s);
    KeptIsPlaced(kept, theirs.messages, s.messages, s.chat.from, upTo, s.long);
    NewBaseTraced(s, t, Taking(s.chat.id.value, theirs.updatedAt, t.held, kept));
    SavedIsRecorded(s, t, kept, upTo);
    TakenIsOwn(s, t);
  }

  /** Or it is the start of it. */
  lemma TakingUpKeeps(s: State)
    requires Good(s) && s.phase.Read? && !IsThisSave(s.phase.kept, s.phase.theirs)
    requires IsEarlierSave(s.chat, s.phase.kept, s.phase.theirs)
    ensures Settled(AfterRefused(s))
  {
    var t := AfterRefused(s);
    NewBaseTraced(s, t, Taking(s.chat.id.value, s.phase.theirs.value.updatedAt, t.held, s.phase.kept));
    StillRecorded(s, t);
    TakenIsOwn(s, t);
    assert Slice(t) == Slice(s) && BaseIn(t) == EndIn(s, t.held);
  }

  lemma TakenIsOwn(s: State, t: State)
    requires AllOwn(s) && t.server == s.server && |t.taken| == |s.taken| + 1 && s.taken <= t.taken
    requires Own(t.server, t.taken[|s.taken|])
    ensures AllOwn(t)
  {
    forall k | 0 <= k < |t.taken| ensures Own(t.server, t.taken[k]) {
      if k < |s.taken| { assert Own(s.server, s.taken[k]); }
    }
  }

  lemma ForkingKeeps(s: State)
    requires Good(s) && s.phase.Read?
    requires !IsThisSave(s.phase.kept, s.phase.theirs) && !IsEarlierSave(s.chat, s.phase.kept, s.phase.theirs)
    ensures Settled(AfterRefused(s))
  {
    var t := AfterRefused(s);
    assert t.line == s.line && t.taken == s.taken && t.server == s.server && t.chat.id.None?;
    StillRecorded(s, t);
    forall k | 0 <= k < |t.line| && t.line[k].request.Put? && t.line[k].request.expected.Some?
      ensures Traced(t, t.line[k].request.id, t.line[k].request.expected.value)
    {
      StillTraced(s, t, s.line[k].request.id, s.line[k].request.expected.value);
    }
  }

  lemma RefusedKeeps(s: State)
    requires Good(s) && s.phase.Read?
    ensures Settled(AfterRefused(s))
  {
    if IsThisSave(s.phase.kept, s.phase.theirs) {
      FoundKeeps(s);
    } else if IsEarlierSave(s.chat, s.phase.kept, s.phase.theirs) {
      TakingUpKeeps(s);
    } else {
      ForkingKeeps(s);
    }
  }

  lemma AnsweredFlies(s: State, k: nat, answer: Answer)
    requires Flight(s) && k < |s.line| && s.line[k].answer.None?
    ensures Flight(s.(line := s.line[k := s.line[k].(answer := Some(answer))]))
  {
    var t := s.(line := s.line[k := s.line[k].(answer := Some(answer))]);
    if s.phase.Saving? && Counts(t, s.phase.sent) { assert Counts(s, s.phase.sent); }
  }

  lemma BaseWithAnswer(s: State, t: State)
    requires Base(s) && t == s.(line := t.line)
    ensures Base(t)
  {
    assert Slice(t) == Slice(s);
  }

  lemma AnsweredKeeps(s: State, k: nat, answer: Answer)
    requires Good(s) && k < |s.line| && s.line[k].answer.None? && SentOk(s.server, s.line[k].(answer := Some(answer)))
    ensures Good(s.(line := s.line[k := s.line[k].(answer := Some(answer))]))
  {
    var t := s.(line := s.line[k := s.line[k].(answer := Some(answer))]);
    StillRecorded(s, t);
    SameTraces(s, t);
    AnsweredFlies(s, k, answer);
    BaseWithAnswer(s, t);
  }

  lemma LandingIsOk(s: State, k: nat, newId: ConvId)
    requires Good(s) && Enabled(s, Land(k, newId))
    ensures Grows(s.server, Landed(s.server, s.line[k].request, newId))
    ensures SentOk(Landed(s.server, s.line[k].request, newId),
                   s.line[k].(answer := Some(AnswerOf(s.server, s.line[k].request, newId))))
  {
    var x := s.line[k];
    assert SentOk(s.server, x);
    GrownSent(s.server, Landed(s.server, x.request, newId), x);
  }

  lemma LandKeeps(s: State, k: nat, newId: ConvId)
    requires Good(s) && Enabled(s, Land(k, newId))
    ensures Good(Apply(s, Land(k, newId)))
  {
    var x := s.line[k];
    var server := Landed(s.server, x.request, newId);
    LandingIsOk(s, k, newId);
    ServerMoves(s, server);
    AnsweredKeeps(s.(server := server), k, AnswerOf(s.server, x.request, newId));
  }

  lemma OutsideKeeps(s: State, e: Event)
    requires Good(s) && Enabled(s, e)
    requires e.Say? || e.Remark? || e.Elsewhere? || e.ElsewhereNew? || e.ElsewhereDelete?
    ensures Good(Apply(s, e))
  {
    if e.Say? || e.Remark? {
      TalkMoves(s, Apply(s, e).messages);
    } else {
      ServerMoves(s, Apply(s, e).server);
    }
  }

  lemma WaitingKeeps(s: State, e: Event)
    requires Good(s) && Enabled(s, e) && (e.GiveUp? || e.LookInVain? || (e.Save? && !s.phase.Idle?))
    ensures Good(Apply(s, e))
  {
    if e.Save? { LooksSame(s, s.(chat := s.chat.(again := true))); }
    else if e.GiveUp? { LooksSame(s, s.(phase := Idle)); }
    else { LooksSame(s, s.(phase := Read(s.phase.kept, s.phase.upTo, None))); }
  }

  lemma LookKeeps(s: State)
    requires Good(s) && Enabled(s, Look)
    ensures Good(Apply(s, Look))
  {
    var t, kept, upTo := Apply(s, Look), s.phase.kept, s.phase.upTo;
    LooksSame(s, t);
    if SameMarks(t.phase.theirs.value.messages, kept) {
      KeptIsPlaced(kept, t.phase.theirs.value.messages, s.messages, s.chat.from, upTo, s.long);
    }
  }

  /** Every step keeps it, but for taking back what must stay. */
  lemma OneStep(s: State, e: Event)
    requires Good(s) && Enabled(s, e) && KeepsNeeded(s, e)
    ensures Good(Apply(s, e))
  {
    match e {
      case TakeBack => if s.messages != [] { TalkMoves(s, Apply(s, e).messages); }
      case Save => if s.phase.Idle? { BeginKeeps(s); } else { WaitingKeeps(s, e); }
      case Land(k, newId) => LandKeeps(s, k, newId);
      case Hear => HearKeeps(s);
      case Resolve =>
        RefusedKeeps(s);
        LoopKeeps(AfterRefused(s));
      case GiveUp => WaitingKeeps(s, e);
      case Look => LookKeeps(s);
      case LookInVain => WaitingKeeps(s, e);
      case _ => OutsideKeeps(s, e);
    }
  }
}
