/**
 * Saving what is said in the notch with the past chats: one save at a time, against a server that other places write
 * to, over a line that loses answers. A request can land any time after it was sent, also after its sender gave up on
 * it.
 */
module ChatSaving {
  import opened Options
  import opened Characters

  type ConvId = nat

  /**
   * `done`: what was made of each offer; `undone`: which actions were taken back; `rest`: what two copies are not
   * compared by.
   */
  datatype Msg = Msg(assistant: bool, content: string, done: seq<string>, undone: seq<bool>, rest: nat)

  const MESSAGES_MAX := 200
  const CONTENT_MAX := 8000

  // ---- what is kept ----------------------------------------------------------------------------------------------

  function Clip(s: string): string {
    if |s| > CONTENT_MAX then TrimEnd(s[..CONTENT_MAX - 1]) + "\U{2026}" else s
  }

  function KeptMsg(m: Msg): Msg { m.(content := Clip(m.content)) }

  function KeptAll(ms: seq<Msg>): (r: seq<Msg>)
    ensures |r| == |ms| && forall k | 0 <= k < |ms| :: r[k] == KeptMsg(ms[k])
  {
    seq(|ms|, k requires 0 <= k < |ms| => KeptMsg(ms[k]))
  }

  /** Where the newest 200 of `n` messages begin. */
  function Window(n: nat): nat { if n > MESSAGES_MAX then n - MESSAGES_MAX else 0 }

  function ForSaving(ms: seq<Msg>): seq<Msg> { KeptAll(ms[Window(|ms|)..]) }

  datatype Words = Words(assistant: bool, content: string)

  function WordsOf(m: Msg): Words { Words(m.assistant, m.content) }

  /** A message with what was made of it, as two copies are compared. */
  function Marks(m: Msg): (Words, seq<string>, seq<bool>) { (WordsOf(m), m.done, m.undone) }

  predicate SameMarks(a: seq<Msg>, b: seq<Msg>) {
    |a| <= |b| && forall k | 0 <= k < |a| :: Marks(a[k]) == Marks(b[k])
  }

  // ---- the two sides ---------------------------------------------------------------------------------------------

  /** A conversation by its versions: a save adds one, so the number of versions stands for the time of the last. */
  datatype Conv = Conv(versions: seq<seq<Msg>>, deleted: bool)

  type Server = map<ConvId, Conv>

  datatype Request = Put(id: ConvId, body: seq<Msg>, expected: Option<nat>) | Post(body: seq<Msg>)

  datatype Answer = Saved(id: ConvId, updatedAt: nat) | Conflict | NotFound

  /**
   * A request on the line: made from `slice`, the conversation's part of the talk, over a version that ends at `base`
   * of it, and answered once it has landed; `long`: by then a save of the conversation had left messages out.
   */
  datatype Sent = Sent(request: Request, slice: seq<Msg>, base: nat, long: bool, answer: Option<Answer>)

  datatype Copy = Copy(messages: seq<Msg>, updatedAt: nat)

  datatype Phase =
    | Idle
    | Saving(sent: nat, kept: seq<Msg>, upTo: nat)
    | Reading(kept: seq<Msg>, upTo: nat)
    | Read(kept: seq<Msg>, upTo: nat, theirs: Option<Copy>)

  datatype Chat = Chat(id: Option<ConvId>, updatedAt: Option<nat>, last: Option<seq<Msg>>, from: nat, savedTo: nat,
    again: bool)

  /**
   * A version the client took for its conversation's: the answer to its save `kept`, or a copy found there whose marks
   * are the start of `kept`. It ends at message `end` of the talk.
   */
  datatype Taking = Taking(id: ConvId, at: nat, end: nat, kept: seq<Msg>)

  /** The messages from `start` up to `end` of the talk. */
  datatype Gap = Gap(start: nat, end: nat)

  /**
   * `skipped`: what a save of more than 200 counted as saved and left out; `long`: the conversation has had such a
   * save; `held`: where the version the conversation knows ends in the talk; `taken`: the versions it has known.
   */
  datatype State = State(
    messages: seq<Msg>, chat: Chat, phase: Phase, line: seq<Sent>, server: Server,
    skipped: seq<Gap>, long: bool, held: nat, taken: seq<Taking>)

  const NEW_CHAT := Chat(None, None, None, 0, 0, false)

  // ---- the client's own steps ------------------------------------------------------------------------------------

  predicate NothingNew(c: Chat, kept: seq<Msg>) {
    kept == [] || !kept[|kept| - 1].assistant || (c.id.Some? && c.last == Some(kept))
  }

  function RequestFor(c: Chat, kept: seq<Msg>): Request {
    if c.id.Some? then Put(c.id.value, kept, c.updatedAt) else Post(kept)
  }

  /** The part of the talk a save is made of. */
  function Slice(s: State): seq<Msg> {
    if s.chat.from <= |s.messages| then s.messages[s.chat.from..] else []
  }

  /** Where the version the conversation knows ends in that part. */
  function BaseIn(s: State): nat {
    if s.chat.id.Some? && s.held >= s.chat.from then s.held - s.chat.from else 0
  }

  /** The slice goes out as a request, and the save waits for its answer. */
  function Send(s: State, slice: seq<Msg>): State {
    var kept, long := ForSaving(slice), s.long || |slice| > MESSAGES_MAX;
    s.(phase := Saving(|s.line|, kept, |s.messages|), long := long,
       line := s.line + [Sent(RequestFor(s.chat, kept), slice, BaseIn(s), long, None)])
  }

  /** One turn of the loop begins, with a request or with its end. */
  function Begin(s: State): State {
    var t := s.(chat := s.chat.(again := false));
    if NothingNew(t.chat, ForSaving(Slice(t))) then t.(phase := Idle) else Send(t, Slice(t))
  }

  /** The bottom of the loop. */
  function Loop(s: State): State {
    if s.chat.again then Begin(s) else s.(phase := Idle)
  }

  function Acknowledged(c: Chat, id: ConvId, updatedAt: nat, kept: seq<Msg>, upTo: nat): Chat {
    c.(id := Some(id), updatedAt := Some(updatedAt), last := Some(kept), savedTo := upTo)
  }

  /** As long as the save and alike by marks: the client takes it for what it sent. */
  predicate IsThisSave(kept: seq<Msg>, theirs: Option<Copy>) {
    theirs.Some? && |theirs.value.messages| == |kept| && SameMarks(theirs.value.messages, kept)
  }

  /** Shorter than the save, alike as far as it goes, and not of the time the client knows. */
  predicate IsEarlierSave(c: Chat, kept: seq<Msg>, theirs: Option<Copy>) {
    theirs.Some? && Some(theirs.value.updatedAt) != c.updatedAt && |theirs.value.messages| < |kept|
    && SameMarks(theirs.value.messages, kept)
  }

  /** The conversation after a refused save, and whether the loop goes round again. */
  function Resolved(c: Chat, messages: seq<Msg>, kept: seq<Msg>, upTo: nat, theirs: Option<Copy>): (Chat, bool) {
    if IsThisSave(kept, theirs) then
      (c.(updatedAt := Some(theirs.value.updatedAt), last := Some(kept), savedTo := upTo), false)
    else if IsEarlierSave(c, kept, theirs) then
      (c.(updatedAt := Some(theirs.value.updatedAt)), true)
    else
      (c.(id := None, updatedAt := None, last := None, from := c.savedTo),
       exists k | c.savedTo <= k < |messages| :: messages[k].assistant)
  }

  /** What was not saved before, and is not among the newest 200 that `kept` holds. */
  function LeftOut(s: State, kept: seq<Msg>, upTo: nat): seq<Gap> {
    if s.chat.savedTo < upTo - |kept| then [Gap(s.chat.savedTo, upTo - |kept|)] else []
  }

  predicate Skipped(gaps: seq<Gap>, i: nat) { exists g :: g in gaps && g.start <= i < g.end }

  // ---- events ----------------------------------------------------------------------------------------------------

  datatype Event =
    | Say(m: Msg)                                              // something is said, by either
    | TakeBack                                                 // a question failed: what stands last by then goes
    | Remark(k: nat, done: seq<string>, undone: seq<bool>, rest: nat)
    | Save
    | Land(k: nat, newId: ConvId)                              // a request reaches the server
    | Hear                                                     // its answer reaches the client
    | GiveUp                                                   // an error instead, or the answer was lost
    | Look                                                     // the copy there is read
    | LookInVain
    | Resolve
    | Elsewhere(id: ConvId, body: seq<Msg>)                    // saved from somewhere else
    | ElsewhereNew(id: ConvId, body: seq<Msg>)
    | ElsewhereDelete(id: ConvId)

  predicate Enabled(s: State, e: Event) {
    match e
    case Remark(k, _, _, _) => k < |s.messages|
    case Land(k, newId) => k < |s.line| && s.line[k].answer.None? && newId !in s.server
    case Hear => s.phase.Saving? && s.phase.sent < |s.line| && s.line[s.phase.sent].answer.Some?
    case GiveUp => s.phase.Saving?
    case Look => s.phase.Reading? && s.chat.id.Some? && s.chat.id.value in s.server
      && !s.server[s.chat.id.value].deleted
                 && s.server[s.chat.id.value].versions != []
    case LookInVain => s.phase.Reading?
    case Resolve => s.phase.Read?
    case Elsewhere(id, _) => id in s.server && !s.server[id].deleted
    case ElsewhereNew(id, _) => id !in s.server
    case ElsewhereDelete(id) => id in s.server
    case _ => true
  }

  function Accepts(server: Server, r: Request): bool {
    r.Post? || (r.id in server && !server[r.id].deleted
      && (r.expected.None? || r.expected.value == |server[r.id].versions|))
  }

  function AnswerOf(server: Server, r: Request, newId: ConvId): Answer {
    if r.Post? then Saved(newId, 1)
    else if r.id !in server || server[r.id].deleted then NotFound
    else if Accepts(server, r) then Saved(r.id, |server[r.id].versions| + 1) else Conflict
  }

  function WithVersion(server: Server, id: ConvId, body: seq<Msg>): Server
    requires id in server
  {
    server[id := server[id].(versions := server[id].versions + [body])]
  }

  function Landed(server: Server, r: Request, newId: ConvId): Server {
    if !Accepts(server, r) then server
    else match r
      case Put(id, body, _) => WithVersion(server, id, body)
      case Post(body) => server[newId := Conv([body], false)]
  }

  /** A save that went through, before the loop goes round. */
  function AfterSaved(s: State, id: ConvId, at: nat): State
    requires s.phase.Saving?
  {
    var kept, upTo := s.phase.kept, s.phase.upTo;
    s.(chat := Acknowledged(s.chat, id, at, kept, upTo), skipped := s.skipped + LeftOut(s, kept, upTo),
       held := upTo, taken := s.taken + [Taking(id, at, upTo, kept)])
  }

  /** Where a copy that is the start of a save up to `upTo` ends in the talk. */
  function EndOf(kept: seq<Msg>, upTo: nat, theirs: Copy): nat {
    if |kept| <= upTo then upTo - |kept| + |theirs.messages| else |theirs.messages|
  }

  /** A refused save, once the copy there is known, before the loop goes round. */
  function AfterRefused(s: State): State
    requires s.phase.Read?
  {
    var kept, upTo, theirs := s.phase.kept, s.phase.upTo, s.phase.theirs;
    var (c, more) := Resolved(s.chat, s.messages, kept, upTo, theirs);
    var t := s.(chat := if more then c.(again := true) else c);
    if c.id.Some? && theirs.Some? then
      var end := EndOf(kept, upTo, theirs.value);
      t.(skipped := s.skipped + if IsThisSave(kept, theirs) then LeftOut(s, kept, upTo) else [], held := end,
         taken := s.taken + [Taking(c.id.value, theirs.value.updatedAt, end, kept)])
    else t.(long := false)
  }

  function Heard(s: State, a: Answer): State
    requires s.phase.Saving? && s.phase.sent < |s.line|
  {
    match a
    case Saved(id, at) => Loop(AfterSaved(s, id, at))
    case Conflict => s.(phase := Reading(s.phase.kept, s.phase.upTo))
    case NotFound =>
      s.(phase := Saving(|s.line|, s.phase.kept, s.phase.upTo),
         line := s.line + [Sent(Post(s.phase.kept), s.line[s.phase.sent].slice, 0, s.long, None)])
  }

  function Apply(s: State, e: Event): State
    requires Enabled(s, e)
  {
    match e
    case Say(m) => s.(messages := s.messages + [m])
    case TakeBack => if s.messages == [] then s else s.(messages := s.messages[..|s.messages| - 1])
    case Remark(k, done, undone, rest) =>
      s.(messages := s.messages[k := s.messages[k].(done := done, undone := undone, rest := rest)])
    case Save => if s.phase.Idle? then Begin(s) else s.(chat := s.chat.(again := true))
    case Land(k, newId) =>
      var x := s.line[k];
      s.(line := s.line[k := x.(answer := Some(AnswerOf(s.server, x.request, newId)))],
        server := Landed(s.server, x.request, newId))
    case Hear => Heard(s, s.line[s.phase.sent].answer.value)
    case GiveUp => s.(phase := Idle)
    case Look =>
      var versions := s.server[s.chat.id.value].versions;
      s.(phase := Read(s.phase.kept, s.phase.upTo, Some(Copy(versions[|versions| - 1], |versions|))))
    case LookInVain => s.(phase := Read(s.phase.kept, s.phase.upTo, None))
    case Resolve => Loop(AfterRefused(s))
    case Elsewhere(id, body) => s.(server := WithVersion(s.server, id, body))
    case ElsewhereNew(id, body) => s.(server := s.server[id := Conv([body], false)])
    case ElsewhereDelete(id) => s.(server := s.server[id := s.server[id].(deleted := true)])
  }

  /** What a turn of the loop sends, if anything. */
  lemma TurnSends(s: State)
    ensures var c, kept, t := s.chat.(again := false), ForSaving(Slice(s)), Begin(s);
      && t.chat == c
      && if NothingNew(c, kept) then t.line == s.line && t.phase == Idle
         else
           && |t.line| == |s.line| + 1 && t.line[|s.line|].request == RequestFor(c, kept)
           && t.phase == Saving(|s.line|, kept, |s.messages|)
  {
  }

  // ---- the conversation as the notch keeps it ----------------------------------------------------------------------

  class NotchChat {
    var id: Option<ConvId>
    var updatedAt: Option<nat>
    var last: Option<seq<Msg>>
    var from: nat
    var savedTo: nat
    var again: bool

    function Value(): Chat
      reads this
    {
      Chat(id, updatedAt, last, from, savedTo, again)
    }

    constructor (start: nat)
      ensures Value() == Chat(None, None, None, start, start, false)
    {
      id, updatedAt, last, from, savedTo, again := None, None, None, start, start, false;
    }

    /** What the loop sends this time round, if anything: in a run at `s`, what the run's turn sends. */
    method Prepare(messages: seq<Msg>, ghost s: State) returns (request: Option<Request>)
      requires s.chat == Value() && s.messages == messages
      modifies this`again
      ensures Value() == Begin(s).chat
      ensures request.None? ==> Begin(s).line == s.line && Begin(s).phase == Idle
      ensures request.Some? ==>
              && |Begin(s).line| == |s.line| + 1 && Begin(s).line[|s.line|].request == request.value
              && Begin(s).phase == Saving(|s.line|, request.value.body, |messages|)
      ensures Value() == old(Value()).(again := false)
      ensures var kept := ForSaving(if from <= |messages| then messages[from..] else []);
              request == if NothingNew(Value(), kept) then None else Some(RequestFor(Value(), kept))
    {
      TurnSends(s);
      again := false;
      var kept := ForSaving(if from <= |messages| then messages[from..] else []);
      if kept == [] || !kept[|kept| - 1].assistant || (id.Some? && last == Some(kept)) { return None; }
      request := if id.Some? then Some(Put(id.value, kept, updatedAt)) else Some(Post(kept));
    }

    /** A save went through. */
    method Acknowledge(savedId: ConvId, savedAt: nat, kept: seq<Msg>, upTo: nat, ghost s: State)
      requires s.chat == Value() && s.phase.Saving? && s.phase.kept == kept && s.phase.upTo == upTo
      modifies this
      ensures Value() == AfterSaved(s, savedId, savedAt).chat
      ensures Value() == Acknowledged(old(Value()), savedId, savedAt, kept, upTo)
    {
      id, updatedAt, last, savedTo := Some(savedId), Some(savedAt), Some(kept), upTo;
    }

    /** A save was refused; whether the loop goes round again. */
    method Conflicted(messages: seq<Msg>, kept: seq<Msg>, upTo: nat, theirs: Option<Copy>, ghost s: State)
      returns (more: bool)
      requires s.chat == Value() && s.messages == messages && s.phase == Read(kept, upTo, theirs)
      modifies this
      ensures AfterRefused(s).chat == if more then Value().(again := true) else Value()
      ensures (Value(), more) == Resolved(old(Value()), messages, kept, upTo, theirs)
    {
      if theirs.Some? && |theirs.value.messages| == |kept| && SameMarks(theirs.value.messages, kept) {
        updatedAt, last, savedTo := Some(theirs.value.updatedAt), Some(kept), upTo;
        return false;
      }
      if theirs.Some? && Some(theirs.value.updatedAt) != updatedAt && |theirs.value.messages| < |kept|
         && SameMarks(theirs.value.messages, kept) {
        updatedAt := Some(theirs.value.updatedAt);
        return true;
      }
      id, updatedAt, last, from := None, None, None, savedTo;
      more := exists k | from <= k < |messages| :: messages[k].assistant;
    }
  }
}
