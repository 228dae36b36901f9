/**
 * Sending a Chat message over a link that can lose the request (e2e/connection.e2e.ts:84-95) or its
 * acknowledgement (e2e/conversation-initiative.e2e.ts:29-41): the composer's draft rules
 * (apps/web/src/chat/references.ts:56-79, 117-128 and 326-374, apps/web/src/chat/chat.tsx:517-580), the
 * server's limits, projection and replay rule (apps/server/src/chat/service.ts:508-547 and 865-968) and
 * everything the link may do between them, as one state machine.
 */
module ChatDelivery {
  import opened Addressing
  import opened Text

  type Id = nat

  datatype Destination = ToRoom | ToPlanner

  /** One request identity owns its complete prepared payload. */
  datatype Payload = Payload(id: Id, text: string, to: Destination)

  datatype Draft = Draft(text: string, submission: Option<Payload>)

  /** What is stored: the request it answers and the text projected from it. */
  datatype Entry = Entry(payload: Payload, text: string)

  /** What the composer knows of the Planner when it prepares a message. */
  datatype Context = Context(planner: bool, mode: bool)

  /** A request on its way: `ask` is the number of the ask that waits for its answer. */
  datatype Request = Request(ask: nat, payload: Payload)

  datatype Answer = Answer(ask: nat, ok: bool)

  /** `issued` and `asked` are history: the payload of every allocated id and of every ask. */
  datatype State = State(
    draft: Draft, connected: bool, asking: Option<nat>,
    issued: map<Id, Payload>, asked: seq<Payload>,
    requests: seq<Request>, answers: seq<Answer>,
    transcript: seq<Entry>, cleared: seq<Payload>)

  const EMPTY := Draft("", None)
  const INITIAL := State(EMPTY, true, None, map[], [], [], [], [], [])

  datatype Event =
    | Edit(text: string)
    | Submit(unused: Id, context: Context)
    | Process(at: nat)
    | RefuseRequest(at: nat)
    | DropRequest(at: nat)
    | Receive(at: nat)
    | Disconnect
    | Reconnect
    | Reload(restored: bool)

  /** `reviseComposerDraft`: an edit drops the prepared payload, an unchanged text keeps it. */
  function Revise(draft: Draft, text: string): Draft {
    if draft.text == text then draft else Draft(text, None)
  }

  /** In Planner mode a message that names nobody is addressed on the way out. */
  function Prefix(text: string, context: Context): string {
    if context.planner && context.mode && !Addressed(text) then MENTION + " " else ""
  }

  /** `chatSendPayload` for a message without references. */
  function Compose(id: Id, text: string, context: Context): Payload {
    var value := Trim(Prefix(text, context) + text);
    Payload(id, value, if context.planner && Addressed(value) then ToPlanner else ToRoom)
  }

  /** `prepareDraftSubmission`: a prepared payload is reused, otherwise a new id is allocated. */
  function Prepare(draft: Draft, unused: Id, context: Context): Option<Draft> {
    if draft.submission.Some? then Some(draft)
    else
      var payload := Compose(unused, draft.text, context);
      if payload.text == "" then None else Some(draft.(submission := Some(payload)))
  }

  /** The bytes of a character in UTF-8. */
  function Bytes(c: char): nat {
    var code := c as int;
    if code < 0x80 then 1 else if code < 0x800 then 2 else if code < 0x10000 then 3 else 4
  }

  function ByteLength(s: string): nat {
    if s == "" then 0 else Bytes(s[0]) + ByteLength(s[1..])
  }

  const MAX_MESSAGE_BYTES := 64 * 1024

  predicate Fits(p: Payload) {
    ByteLength(p.text) <= MAX_MESSAGE_BYTES
  }

  /** The text the server makes of a message: for the Planner, the instruction without the summons. */
  function Projected(p: Payload): string {
    if p.to.ToPlanner? then Instruction(p.text) else Trim(p.text)
  }

  /** Whether the server takes a message it does not hold yet. */
  predicate Deliverable(p: Payload) {
    Fits(p) && Projected(p) != ""
  }

  function Find(transcript: seq<Entry>, id: Id): Option<Entry> {
    if transcript == [] then None
    else if transcript[0].payload.id == id then Some(transcript[0])
    else Find(transcript[1..], id)
  }

  /** The server's side of one send: a known id is answered from the transcript, a new one is projected and stored. */
  function HandleSend(transcript: seq<Entry>, payload: Payload): (seq<Entry>, bool) {
    if !Fits(payload) then (transcript, false)
    else
      match Find(transcript, payload.id)
      case Some(entry) => (transcript, entry.payload == payload)
      case None =>
        if Projected(payload) == "" then (transcript, false)
        else (transcript + [Entry(payload, Projected(payload))], true)
  }

  function Without<T>(xs: seq<T>, at: nat): seq<T>
    requires at < |xs|
  {
    xs[..at] + xs[at + 1..]
  }

  /** One step of the composer, the link or the server; an event that cannot happen changes nothing. */
  function Step(s: State, e: Event): State {
    match e
    case Edit(text) => s.(draft := Revise(s.draft, text))
    case Submit(unused, context) =>
      var prepared := Prepare(s.draft, unused, context);
      if s.asking.Some? || !s.connected || Trim(s.draft.text) == "" || prepared.None? then s
      else if s.draft.submission.None? && unused in s.issued then s
      else
        var payload := prepared.value.submission.value;
        s.(draft := prepared.value, asking := Some(|s.asked|), asked := s.asked + [payload],
           issued := s.issued[payload.id := payload], requests := s.requests + [Request(|s.asked|, payload)])
    case Process(at) =>
      if at >= |s.requests| then s
      else
        var (transcript, ok) := HandleSend(s.transcript, s.requests[at].payload);
        s.(requests := Without(s.requests, at), transcript := transcript,
           answers := s.answers + [Answer(s.requests[at].ask, ok)])
    case RefuseRequest(at) =>
      if at >= |s.requests| then s
      else s.(requests := Without(s.requests, at), answers := s.answers + [Answer(s.requests[at].ask, false)])
    case DropRequest(at) => if at >= |s.requests| then s else s.(requests := Without(s.requests, at))
    case Receive(at) =>
      if at >= |s.answers| then s
      else
        var t := s.(answers := Without(s.answers, at));
        if s.asking != Some(s.answers[at].ask) then t
        else Settle(t.(asking := None), s.answers[at])
    case Disconnect => s.(connected := false, asking := None, answers := [])
    case Reconnect => s.(connected := true)
    case Reload(restored) =>
      s.(asking := None, answers := [], draft := if restored then s.draft else Draft(s.draft.text, None))
  }

  /** The composer's reaction to the answer it waits for: only the draft that was sent is cleared. */
  function Settle(s: State, answer: Answer): State {
    if answer.ok && answer.ask < |s.asked| && s.draft.submission == Some(s.asked[answer.ask]) then
      s.(draft := EMPTY, cleared := s.cleared + [s.asked[answer.ask]])
    else s
  }

  function After(es: seq<Event>): State {
    if es == [] then INITIAL else Step(After(es[..|es| - 1]), es[|es| - 1])
  }

  // ----- the invariant

  ghost predicate UniqueIds(ps: seq<Payload>) {
    forall i, j :: 0 <= i < j < |ps| ==> ps[i].id != ps[j].id
  }

  ghost predicate UniqueEntries(transcript: seq<Entry>) {
    forall i, j :: 0 <= i < j < |transcript| ==> transcript[i].payload.id != transcript[j].payload.id
  }

  /** The payload is the one its id was allocated for. */
  ghost predicate Known(s: State, p: Payload) {
    p.id in s.issued && s.issued[p.id] == p && Trim(p.text) != ""
  }

  /** The entry a payload leaves behind. */
  function EntryOf(p: Payload): Entry {
    Entry(p, Projected(p))
  }

  ghost predicate TranscriptOk(s: State) {
    UniqueEntries(s.transcript)
    && forall e :: e in s.transcript ==> Known(s, e.payload) && Deliverable(e.payload) && e == EntryOf(e.payload)
  }

  ghost predicate ClearedOk(s: State) {
    UniqueIds(s.cleared) && forall p :: p in s.cleared ==> EntryOf(p) in s.transcript
  }

  /** The payload says what is in the composer, addressed or not. */
  ghost predicate Carries(p: Payload, text: string) {
    exists context :: p == Compose(p.id, text, context)
  }

  ghost predicate DraftOk(s: State) {
    s.draft.submission.Some? ==>
      var p := s.draft.submission.value;
      Known(s, p) && Carries(p, s.draft.text) && forall q :: q in s.cleared ==> q.id != p.id
  }

  ghost predicate LinkOk(s: State) {
    && (forall k :: 0 <= k < |s.asked| ==> Known(s, s.asked[k]))
    && (forall r :: r in s.requests ==> r.ask < |s.asked| && r.payload == s.asked[r.ask])
    && (forall a :: a in s.answers ==> a.ask < |s.asked| && (a.ok ==> EntryOf(s.asked[a.ask]) in s.transcript))
    && (s.asking.Some? ==> s.asking.value < |s.asked|)
  }

  ghost predicate Inv(s: State) {
    TranscriptOk(s) && ClearedOk(s) && DraftOk(s) && LinkOk(s)
  }

  lemma {:induction false} FindIsExact(transcript: seq<Entry>, id: Id)
    ensures match Find(transcript, id)
            case Some(e) => e in transcript && e.payload.id == id
            case None => forall e :: e in transcript ==> e.payload.id != id
  {
    if transcript != [] {
      FindIsExact(transcript[1..], id);
    }
  }

  lemma {:induction false} InWithout<T>(xs: seq<T>, at: nat)
    requires at < |xs|
    ensures forall x :: x in Without(xs, at) ==> x in xs
  {
  }

  lemma {:induction false} TrimKeepsText(s: string)
    requires Trim(s) != ""
    ensures Trim(Trim(s)) != ""
  {
    TrimIsEmpty(s);
    TrimStartIsSuffix(s);
    var t := TrimStart(s);
    TrimEndKeepsStart(t);
    TrimIsEmpty(Trim(s));
    assert !IsBlank(Trim(s)[0]);
  }

  lemma {:induction false} TrimEndKeepsStart(s: string)
    ensures TrimEnd(s) <= s
  {
    if s != "" && IsBlank(s[|s| - 1]) {
      TrimEndKeepsStart(s[..|s| - 1]);
    }
  }

  /** A composed message is empty only if the composer is. */
  lemma {:induction false} ComposedText(id: Id, text: string, context: Context)
    requires Trim(text) != ""
    ensures Trim(Compose(id, text, context).text) != ""
  {
    var value := Prefix(text, context) + text;
    TrimIsEmpty(text);
    TrimIsEmpty(value);
    var i :| 0 <= i < |text| && !IsBlank(text[i]);
    assert value[|Prefix(text, context)| + i] == text[i];
    TrimKeepsText(value);
  }

  /**
   * A prepared message is stored, once, if and only if it can be delivered; whatever is in the transcript,
   * a message that was stored is found again and one that cannot be delivered changes nothing.
   */
  lemma {:induction false} SendsAreStoredOnce(s: State, p: Payload)
    requires TranscriptOk(s) && Known(s, p)
    ensures var (transcript, ok) := HandleSend(s.transcript, p);
            && (ok <==> Deliverable(p)) && (ok <==> EntryOf(p) in transcript)
            && transcript == (if ok && EntryOf(p) !in s.transcript then s.transcript + [EntryOf(p)] else s.transcript)
            && UniqueEntries(transcript)
  {
    FindIsExact(s.transcript, p.id);
    var found := Find(s.transcript, p.id);
    if found.Some? {
      assert Known(s, found.value.payload);
    }
  }

  /** A message cannot be delivered if and only if it is too long, or is for the Planner and nothing but summons. */
  lemma {:induction false} DeliverableExactly(p: Payload)
    requires Trim(p.text) != ""
    ensures Deliverable(p) <==> Fits(p) && !(p.to.ToPlanner? && OnlySummons(p.text))
  {
    InstructionIsEmpty(p.text);
  }

  lemma {:induction false} SubmitKeepsInv(s: State, unused: Id, context: Context)
    requires Inv(s)
    ensures Inv(Step(s, Submit(unused, context)))
  {
    var t := Step(s, Submit(unused, context));
    if t != s {
      var p := t.asked[|s.asked|];
      if s.draft.submission.None? {
        ComposedText(unused, s.draft.text, context);
        assert Carries(p, s.draft.text);
        NewIdKeepsKnown(s, t, p);
      } else {
        assert t.issued == s.issued;
      }
      forall r | r in t.requests ensures r.ask < |t.asked| && r.payload == t.asked[r.ask] {
        if r !in s.requests {
          assert r == Request(|s.asked|, p);
        }
      }
    }
  }

  lemma {:induction false} NewIdKeepsKnown(s: State, t: State, p: Payload)
    requires Inv(s) && p.id !in s.issued && t.issued == s.issued[p.id := p]
    ensures forall q :: Known(s, q) ==> Known(t, q) && q.id != p.id
    ensures forall q :: q in s.cleared ==> q.id != p.id
  {
    forall q | q in s.cleared ensures q.id != p.id {
      assert EntryOf(q) in s.transcript;
      assert Known(s, EntryOf(q).payload);
    }
  }

  lemma {:induction false} ProcessKeepsInv(s: State, at: nat)
    requires Inv(s) && at < |s.requests|
    ensures Inv(Step(s, Process(at)))
  {
    var r := s.requests[at];
    assert r in s.requests;
    SendsAreStoredOnce(s, r.payload);
    InWithout(s.requests, at);
    var t := Step(s, Process(at));
    forall a | a in t.answers ensures a.ask < |t.asked| && (a.ok ==> EntryOf(t.asked[a.ask]) in t.transcript) {
      if a !in s.answers {
        assert a == Answer(r.ask, HandleSend(s.transcript, r.payload).1);
      }
    }
  }

  lemma {:induction false} ReceiveKeepsInv(s: State, at: nat)
    requires Inv(s) && at < |s.answers|
    ensures Inv(Step(s, Receive(at)))
  {
    assert s.answers[at] in s.answers;
    InWithout(s.answers, at);
  }

  lemma {:induction false} RefuseKeepsInv(s: State, at: nat)
    requires Inv(s) && at < |s.requests|
    ensures Inv(Step(s, RefuseRequest(at))) && Inv(Step(s, DropRequest(at)))
  {
    assert s.requests[at] in s.requests;
    InWithout(s.requests, at);
  }

  lemma {:induction false} StepKeepsInv(s: State, e: Event)
    requires Inv(s)
    ensures Inv(Step(s, e))
  {
    match e
    case Submit(unused, context) => SubmitKeepsInv(s, unused, context);
    case Process(at) => if at < |s.requests| { ProcessKeepsInv(s, at); }
    case RefuseRequest(at) => if at < |s.requests| { RefuseKeepsInv(s, at); }
    case DropRequest(at) => if at < |s.requests| { RefuseKeepsInv(s, at); }
    case Receive(at) => if at < |s.answers| { ReceiveKeepsInv(s, at); }
    case Edit(_) =>
    case Disconnect =>
    case Reconnect =>
    case Reload(_) =>
  }

  lemma {:induction false} InvAlways(es: seq<Event>)
    ensures Inv(After(es))
  {
    if es != [] {
      InvAlways(es[..|es| - 1]);
      StepKeepsInv(After(es[..|es| - 1]), es[|es| - 1]);
    }
  }

  // ----- what every run guarantees

  ghost predicate ExactlyOnce(transcript: seq<Entry>, p: Payload) {
    exists i :: 0 <= i < |transcript| && transcript[i] == EntryOf(p)
                && forall j :: 0 <= j < |transcript| && j != i ==> transcript[j].payload.id != p.id
  }

  lemma {:induction false} StoredOnce(transcript: seq<Entry>, p: Payload)
    requires UniqueEntries(transcript) && EntryOf(p) in transcript
    ensures ExactlyOnce(transcript, p)
  {
    var i :| 0 <= i < |transcript| && transcript[i] == EntryOf(p);
  }

  /**
   * In every run, whatever the link loses, refuses or delays: no id is in the transcript twice, every entry
   * is what the server makes of the message its id was allocated for, and every draft the composer cleared
   * is there exactly once.
   */
  lemma {:induction false} MessagesArriveExactlyOnce(es: seq<Event>)
    ensures var s := After(es);
            && UniqueEntries(s.transcript) && UniqueIds(s.cleared)
            && (forall e :: e in s.transcript ==> e.payload.id in s.issued && s.issued[e.payload.id] == e.payload && e == EntryOf(e.payload))
            && (forall p :: p in s.cleared ==> ExactlyOnce(s.transcript, p))
  {
    InvAlways(es);
    var s := After(es);
    forall p | p in s.cleared ensures ExactlyOnce(s.transcript, p) {
      StoredOnce(s.transcript, p);
    }
  }

  /** The words in the composer are only ever replaced by an edit, or emptied once they are in the transcript. */
  lemma {:induction false} DraftIsNeverLost(es: seq<Event>, e: Event)
    ensures var s, t := After(es), Step(After(es), e);
            t.draft.text == s.draft.text || e.Edit?
            || (t.draft == EMPTY && s.draft.submission.Some? && Carries(s.draft.submission.value, s.draft.text)
                && ExactlyOnce(t.transcript, s.draft.submission.value))
  {
    InvAlways(es);
    StepKeepsInv(After(es), e);
    var s, t := After(es), Step(After(es), e);
    if t.draft.text != s.draft.text && !e.Edit? {
      var p := s.draft.submission.value;
      assert t.cleared == s.cleared + [p];
      assert p in t.cleared;
      StoredOnce(t.transcript, p);
    }
  }

  /** Sending an unedited draft again keeps its id; sending after an edit allocates a new one. */
  lemma {:induction false} RetryKeepsId(es: seq<Event>, unused: Id, context: Context, edits: string)
    requires var s := After(es);
             s.connected && s.asking.None? && s.draft.submission.Some? && Trim(s.draft.text) != "" && unused !in s.issued
    ensures var s, t := After(es), Step(After(es), Submit(unused, context));
            t.requests == s.requests + [Request(|s.asked|, s.draft.submission.value)]
    ensures var s := After(es);
            var u := Step(Step(s, Edit(edits)), Submit(unused, context));
            edits != s.draft.text && Trim(edits) != ""
            ==> u.requests == s.requests + [Request(|s.asked|, Compose(unused, edits, context))] && unused != s.draft.submission.value.id
  {
    InvAlways(es);
    if Trim(edits) != "" {
      ComposedText(unused, edits, context);
      TrimIsEmpty("");
    }
  }

  /** One undisturbed round trip: send, let the server answer, receive the answer. */
  function RoundTrip(s: State, unused: Id, context: Context): State {
    var sent := Step(s, Submit(unused, context));
    var processed := Step(sent, Process(|s.requests|));
    Step(processed, Receive(|s.answers|))
  }

  /** What an idle, connected composer with words in it sends. */
  lemma {:induction false} SentMessage(s: State, unused: Id, context: Context)
    requires Inv(s) && s.connected && s.asking.None? && Trim(s.draft.text) != "" && unused !in s.issued
    ensures var sent := Step(s, Submit(unused, context));
            var p := s.draft.submission.Or(Compose(unused, s.draft.text, context));
            sent == s.(draft := s.draft.(submission := Some(p)), asking := Some(|s.asked|), asked := s.asked + [p],
                       issued := s.issued[p.id := p], requests := s.requests + [Request(|s.asked|, p)])
            && Known(sent, p)
  {
    ComposedText(unused, s.draft.text, context);
    TrimIsEmpty("");
    SubmitKeepsInv(s, unused, context);
    var sent := Step(s, Submit(unused, context));
    assert Known(sent, sent.asked[|s.asked|]);
  }

  /**
   * From every reachable state with an idle, connected composer and words in it, one undisturbed round trip
   * clears the draft and leaves its message in the transcript exactly once, if and only if the message can
   * be delivered; otherwise the words and their id stay in the composer and the transcript is unchanged.
   */
  lemma {:induction false} OneRoundTripSuffices(es: seq<Event>, unused: Id, context: Context)
    requires var s := After(es);
             s.connected && s.asking.None? && Trim(s.draft.text) != "" && unused !in s.issued
    ensures var s := After(es);
            var p, done := s.draft.submission.Or(Compose(unused, s.draft.text, context)), RoundTrip(s, unused, context);
            if Fits(p) && !(p.to.ToPlanner? && OnlySummons(p.text)) then
              done.draft == EMPTY && ExactlyOnce(done.transcript, p)
            else done.draft == Draft(s.draft.text, Some(p)) && done.transcript == s.transcript && EntryOf(p) !in s.transcript
  {
    var s := After(es);
    InvAlways(es);
    SentMessage(s, unused, context);
    StepKeepsInv(s, Submit(unused, context));
    var sent := Step(s, Submit(unused, context));
    var p := sent.draft.submission.value;
    DeliverableExactly(p);
    SendsAreStoredOnce(sent, p);
    Processed(s, sent, p);
    var processed := Step(sent, Process(|s.requests|));
    StepKeepsInv(sent, Process(|s.requests|));
    Settled(s, sent, processed, p, Deliverable(p));
    if Deliverable(p) {
      StoredOnce(processed.transcript, p);
    }
  }

  lemma {:induction false} Processed(s: State, sent: State, p: Payload)
    requires sent.requests == s.requests + [Request(|s.asked|, p)]
    ensures var (transcript, ok) := HandleSend(sent.transcript, p);
            Step(sent, Process(|s.requests|))
            == sent.(requests := s.requests, transcript := transcript, answers := sent.answers + [Answer(|s.asked|, ok)])
  {
    assert Without(sent.requests, |s.requests|) == s.requests;
  }

  lemma {:induction false} Settled(s: State, sent: State, processed: State, p: Payload, ok: bool)
    requires sent.draft.submission == Some(p) && sent.asking == Some(|s.asked|) && sent.asked == s.asked + [p]
    requires sent.answers == s.answers && processed.draft == sent.draft && processed.asking == sent.asking
    requires processed.asked == sent.asked && processed.answers == sent.answers + [Answer(|s.asked|, ok)]
    ensures var done := Step(processed, Receive(|s.answers|));
            done.transcript == processed.transcript && done.draft == if ok then EMPTY else sent.draft
  {
    assert processed.answers[|s.answers|] == Answer(|s.asked|, ok);
  }

  /** The summons alone, sent while the Planner is on, is refused each time it is sent. */
  lemma {:induction false} SummonsAloneIsRefused(id: Id, mode: bool)
    ensures var p := Compose(id, MENTION, Context(true, mode)); p == Payload(id, MENTION, ToPlanner) && !Deliverable(p)
  {
    SummonsIsAddressed();
    SummonsIsOnlySummons();
    assert "" + MENTION == MENTION;
    DeliverableExactly(Payload(id, MENTION, ToPlanner));
  }
}
