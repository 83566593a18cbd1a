/**
  The chat client's session state, as values: what the read loop does with each
  decoded server line, what the Return key does with the typed text, and the
  whole read loop over a finite sequence of server lines.
 */
module Session {
  import opened Wrappers
  import opened Protocol

  /** The two text colours the transcript uses. */
  datatype Colour = Blue | Black

  /** One run of text appended to the transcript pane, with its colour. */
  datatype Entry = Entry(text: string, colour: Colour)

  /** The two error dialogs of the handshake. */
  datatype Notice = EmptyNameNotice | NameUsedNotice(name: string)

  /**
    Everything the client changes: whether the text field is editable (the user
    may send), the window title, the text in the field, the transcript, the
    error dialogs shown so far and the lines written to the server, in order.
   */
  datatype State = State(
    canSend: bool,
    title: string,
    field: string,
    transcript: seq<Entry>,
    notices: seq<Notice>,
    sent: seq<string>)

  const InitialTitle: string := "Chatter"

  /** A freshly built client: the field is not editable and nothing has been shown or sent. */
  function Initial(): (r: State)
    ensures !r.canSend && TextOnlyOnceAccepted(r) && r.title == "Chatter"
    ensures r.transcript == [] && r.notices == [] && r.sent == []
  {
    State(false, InitialTitle, "", [], [], [])
  }

  /** The line a PrintWriter writes for a possibly-null string: a null reference prints as "null". */
  function PrintedLine(answer: Option<string>): (r: string)
    // a chosen name is written verbatim, a cancelled dialog as the four characters of "null"
    ensures answer.Some? ==> r == answer.value
    ensures answer.None? ==> r == "null" && |r| == 4
  {
    match answer
    case Some(name) => name
    case None => "null"
  }

  /**
    The effect of one decoded server line. `answer` is what the name dialog
    returns; only a name request asks for it.
   */
  function Handle(s: State, e: Event, answer: Option<string>): (r: State)
    // the send flag is set by an accepted name, and by nothing else, and never cleared
    ensures r.canSend <==> s.canSend || e.NameAccepted?
    ensures !e.NameAccepted? ==> r.title == s.title
    ensures e.NameAccepted? ==> r.title == InitialTitle + " - " + e.name
    ensures r.field == s.field
    ensures e == Unrecognized ==> r == s
  {
    match e
    case SubmitNameRequest => s.(sent := s.sent + [PrintedLine(answer)])
    case NameEmpty => s.(notices := s.notices + [EmptyNameNotice])
    case NameUsed(name) => s.(notices := s.notices + [NameUsedNotice(name)])
    case NameAccepted(name) => s.(title := InitialTitle + " - " + name, canSend := true)
    case ServerNotice(text) => s.(transcript := s.transcript + [Entry(text + "\n", Blue)])
    case ChatMessage(text) => s.(transcript := s.transcript + [Entry(text + "\n", Black)])
    case Unrecognized => s
  }

  /**
    Handling a server line only appends: only a name request writes to the
    server, and exactly the dialog's answer as the PrintWriter prints it; only
    the two message kinds add to the transcript, one entry each; only the two
    name errors add a notice. Earlier content is never changed.
   */
  lemma HandleAppendsOnly(s: State, e: Event, answer: Option<string>)
    ensures var r := Handle(s, e, answer);
      && r.sent == s.sent + (if e == SubmitNameRequest then [PrintedLine(answer)] else [])
      && r.transcript == s.transcript + ShownEvent(e)
      && r.notices == s.notices + NoticeOf(e)
  {
  }

  /** One server line: decode it, then handle it; a line whose payload cut throws changes nothing. */
  function Receive(s: State, line: string, answer: Option<string>): (r: Result<State, Fault>)
    ensures r.Success? <==> Decode(line).Success?
    ensures r.Failure? ==> r.error == IndexOutOfRange(|line| + 1, |line|)
    ensures Decode(line) == Success(Unrecognized) ==> r == Success(s)
    ensures r.Success? ==> r.value.field == s.field
  {
    match Decode(line)
    case Failure(f) => Failure(f)
    case Success(e) => Success(Handle(s, e, answer))
  }

  /** The user types into the field, which only takes input while it is editable. */
  function Edit(s: State, text: string): (r: State)
    ensures r == s.(field := r.field)
    ensures r.field == (if s.canSend then text else s.field)
  {
    if s.canSend then s.(field := text) else s
  }

  /**
    The Return key: the field's text is written verbatim as one line, then the
    field is cleared. The handler does not look at whether the field is
    editable; see TextOnlyOnceAccepted for what it can send before that.
   */
  function Submit(s: State): (r: State)
    ensures r.sent == s.sent + [s.field] && r.field == ""
    ensures r.canSend == s.canSend && r.title == s.title
    ensures r.transcript == s.transcript && r.notices == s.notices
  {
    s.(sent := s.sent + [s.field], field := "")
  }

  /** The field holds text only once it has become editable, i.e. once the name was accepted. */
  predicate TextOnlyOnceAccepted(s: State)
  {
    !s.canSend ==> s.field == ""
  }

  /** How the read loop ended: the input ran out, or the line at index `at` threw. */
  datatype Outcome = EndOfInput | Aborted(at: nat, fault: Fault)

  datatype Trace = Trace(last: State, outcome: Outcome)

  /**
    The read loop from line `from` on, in arrival order; `ask(i)` is the name
    dialog's answer if line `i` asks for a name.
   */
  function Replay(s: State, lines: seq<string>, ask: nat -> Option<string>, from: nat): (t: Trace)
    ensures t.outcome.Aborted? ==> from <= t.outcome.at < |lines|
    decreases |lines| - from
  {
    if from >= |lines| then Trace(s, EndOfInput)
    else match Receive(s, lines[from], ask(from))
      case Failure(f) => Trace(s, Aborted(from, f))
      case Success(next) => Replay(next, lines, ask, from + 1)
  }

  /** The index of the first line the loop did not complete. */
  function Stop(t: Trace, lines: seq<string>): nat
  {
    match t.outcome
    case EndOfInput => |lines|
    case Aborted(at, _) => at
  }

  predicate Accepts(line: string)
  {
    Decode(line).Success? && Decode(line).value.NameAccepted?
  }

  /** Some line from `from` up to `to` satisfies `p`. */
  predicate AnyWithin(p: string -> bool, lines: seq<string>, from: nat, to: nat)
    requires to <= |lines|
  {
    exists i :: from <= i < to && p(lines[i])
  }

  lemma AnyWithinFirst(p: string -> bool, lines: seq<string>, from: nat, to: nat)
    requires from < to <= |lines|
    ensures AnyWithin(p, lines, from, to) <==> p(lines[from]) || AnyWithin(p, lines, from + 1, to)
  {
    if AnyWithin(p, lines, from, to) && !p(lines[from]) {
      var i :| from <= i < to && p(lines[i]);
      assert from + 1 <= i;
    }
  }

  /** The line written in reply to one server line, if it asks for a name. */
  function ReplyOf(line: string, answer: Option<string>): seq<string>
  {
    if Decode(line) == Success(SubmitNameRequest) then [PrintedLine(answer)] else []
  }

  /** The replies to the name requests among lines `from` up to `to`. */
  function Replies(lines: seq<string>, ask: nat -> Option<string>, from: nat, to: nat): seq<string>
    requires from <= to <= |lines|
    decreases (to as int) - (from as int)
  {
    if from == to then [] else ReplyOf(lines[from], ask(from)) + Replies(lines, ask, from + 1, to)
  }

  /** The error dialog an event shows, if any. */
  function NoticeOf(e: Event): seq<Notice>
  {
    match e
    case NameEmpty => [EmptyNameNotice]
    case NameUsed(name) => [NameUsedNotice(name)]
    case _ => []
  }

  /** The error dialog one line shows, if any. */
  function Noticed(line: string): seq<Notice>
  {
    match Decode(line)
    case Success(e) => NoticeOf(e)
    case Failure(_) => []
  }

  /** The error dialogs of lines `from` up to `to`, in order. */
  function NoticedAll(lines: seq<string>, from: nat, to: nat): seq<Notice>
    requires from <= to <= |lines|
    decreases (to as int) - (from as int)
  {
    if from == to then [] else Noticed(lines[from]) + NoticedAll(lines, from + 1, to)
  }

  /** The window title after one line, given the title before it. */
  function Retitled(title: string, line: string): string
  {
    match Decode(line)
    case Success(NameAccepted(name)) => "Chatter - " + name
    case _ => title
  }

  /**
    The window title after lines `from` up to `to`: the one set by the last
    accepted name among them, or `title` if none was accepted.
   */
  function TitleAfter(title: string, lines: seq<string>, from: nat, to: nat): string
    requires from <= to <= |lines|
    decreases (to as int) - (from as int)
  {
    if from == to then title else TitleAfter(Retitled(title, lines[from]), lines, from + 1, to)
  }

  /** The transcript entry an event contributes, if any. */
  function ShownEvent(e: Event): seq<Entry>
  {
    match e
    case ServerNotice(text) => [Entry(text + "\n", Blue)]
    case ChatMessage(text) => [Entry(text + "\n", Black)]
    case _ => []
  }

  /** The transcript entry one line contributes, if any. */
  function Shown(line: string): seq<Entry>
  {
    match Decode(line)
    case Success(e) => ShownEvent(e)
    case Failure(_) => []
  }

  /** The transcript entries of lines `from` up to `to`, in order. */
  function ShownAll(lines: seq<string>, from: nat, to: nat): seq<Entry>
    requires from <= to <= |lines|
    decreases (to as int) - (from as int)
  {
    if from == to then [] else Shown(lines[from]) + ShownAll(lines, from + 1, to)
  }

  // ---------------------------------------------------------------------------
  // Lemmas
  // ---------------------------------------------------------------------------

  /** A line that matches no control word is dropped: nothing at all changes. */
  lemma UnmatchedLineChangesNothing(s: State, line: string, answer: Option<string>)
    requires Matches(line) == {}
    ensures Receive(s, line, answer) == Success(s)
  {
    DecodeIsOrderFree(line);
  }

  /**
    The loop stops at the first line that is a bare payload-carrying control
    word, and runs to the end of the input when there is none: every line
    before the stop is completed, and an abort happens on such a line.
   */
  lemma {:induction false} ReplayStops(s: State, lines: seq<string>, ask: nat -> Option<string>, from: nat)
    requires from <= |lines|
    ensures var t := Replay(s, lines, ask, from);
      from <= Stop(t, lines) <= |lines| &&
      (t.outcome.Aborted? ==> t.outcome.at < |lines| && lines[t.outcome.at] in BareKeywordLines) &&
      (forall i :: from <= i < Stop(t, lines) ==> lines[i] !in BareKeywordLines)
    decreases |lines| - from
  {
    if from < |lines| {
      match Receive(s, lines[from], ask(from))
      case Failure(f) =>
        DecodeFailsOnlyOnBareKeyword(lines[from]);
      case Success(next) =>
        DecodeFailsOnlyOnBareKeyword(lines[from]);
        ReplayStops(next, lines, ask, from + 1);
    }
  }

  /**
    The send flag after the loop is set exactly when it was set before or some
    completed line accepted the name: it is never cleared, and any number of
    rejected names leave it unset.
   */
  lemma {:induction false} ReplaySendFlag(s: State, lines: seq<string>, ask: nat -> Option<string>, from: nat)
    requires from <= |lines|
    ensures var t := Replay(s, lines, ask, from);
      from <= Stop(t, lines) <= |lines| &&
      (t.last.canSend <==> s.canSend || AnyWithin(Accepts, lines, from, Stop(t, lines)))
    decreases |lines| - from
  {
    ReplayStops(s, lines, ask, from);
    if from < |lines| {
      match Decode(lines[from])
      case Failure(f) =>
      case Success(e) =>
        var next := Handle(s, e, ask(from));
        ReplaySendFlag(next, lines, ask, from + 1);
        AnyWithinFirst(Accepts, lines, from, Stop(Replay(s, lines, ask, from), lines));
    }
  }

  /** Once sending is enabled it stays enabled for the rest of the loop. */
  lemma SendFlagIsSticky(s: State, lines: seq<string>, ask: nat -> Option<string>, from: nat)
    requires from <= |lines| && s.canSend
    ensures Replay(s, lines, ask, from).last.canSend
  {
    ReplaySendFlag(s, lines, ask, from);
  }

  /**
    The loop writes to the server exactly the answers to the name requests it
    completed, in order, after what was already written.
   */
  lemma {:induction false} ReplaySent(s: State, lines: seq<string>, ask: nat -> Option<string>, from: nat)
    requires from <= |lines|
    ensures var t := Replay(s, lines, ask, from);
      from <= Stop(t, lines) <= |lines| &&
      t.last.sent == s.sent + Replies(lines, ask, from, Stop(t, lines))
    decreases |lines| - from
  {
    ReplayStops(s, lines, ask, from);
    if from < |lines| {
      match Decode(lines[from])
      case Failure(f) =>
      case Success(e) =>
        var next := Handle(s, e, ask(from));
        ReplayStep(s, lines, ask, from, e);
        HandleAppendsOnly(s, e, ask(from));
        ReplaySent(next, lines, ask, from + 1);
        var stop := Stop(Replay(next, lines, ask, from + 1), lines);
        assert Replies(lines, ask, from, stop) == ReplyOf(lines[from], ask(from)) + Replies(lines, ask, from + 1, stop);
        AppendAssoc(s.sent, ReplyOf(lines[from], ask(from)), Replies(lines, ask, from + 1, stop));
    }
  }

  /**
    The transcript is append-only: the loop adds, in order, the entry of each
    completed server or chat message, and leaves the earlier entries alone.
   */
  lemma {:induction false} ReplayTranscript(s: State, lines: seq<string>, ask: nat -> Option<string>, from: nat)
    requires from <= |lines|
    ensures var t := Replay(s, lines, ask, from);
      from <= Stop(t, lines) <= |lines| &&
      t.last.transcript == s.transcript + ShownAll(lines, from, Stop(t, lines))
    decreases |lines| - from
  {
    ReplayStops(s, lines, ask, from);
    if from < |lines| {
      match Decode(lines[from])
      case Failure(f) =>
      case Success(e) =>
        var next := Handle(s, e, ask(from));
        ReplayStep(s, lines, ask, from, e);
        HandleAppendsOnly(s, e, ask(from));
        ReplayTranscript(next, lines, ask, from + 1);
        var stop := Stop(Replay(next, lines, ask, from + 1), lines);
        assert ShownAll(lines, from, stop) == ShownEvent(e) + ShownAll(lines, from + 1, stop);
        AppendAssoc(s.transcript, ShownEvent(e), ShownAll(lines, from + 1, stop));
    }
  }

  /**
    The error dialogs are append-only: the loop adds, in order, the dialog of
    each completed empty-name or name-used line.
   */
  lemma {:induction false} ReplayNotices(s: State, lines: seq<string>, ask: nat -> Option<string>, from: nat)
    requires from <= |lines|
    ensures var t := Replay(s, lines, ask, from);
      from <= Stop(t, lines) <= |lines| &&
      t.last.notices == s.notices + NoticedAll(lines, from, Stop(t, lines))
    decreases |lines| - from
  {
    ReplayStops(s, lines, ask, from);
    if from < |lines| {
      match Decode(lines[from])
      case Failure(f) =>
      case Success(e) =>
        var next := Handle(s, e, ask(from));
        ReplayStep(s, lines, ask, from, e);
        HandleAppendsOnly(s, e, ask(from));
        ReplayNotices(next, lines, ask, from + 1);
        var stop := Stop(Replay(next, lines, ask, from + 1), lines);
        assert NoticedAll(lines, from, stop) == NoticeOf(e) + NoticedAll(lines, from + 1, stop);
        AppendAssoc(s.notices, NoticeOf(e), NoticedAll(lines, from + 1, stop));
    }
  }

  /**
    After the loop the title is the one set by the last completed line that
    accepted a name, or the old title if no such line was completed.
   */
  lemma {:induction false} ReplayTitle(s: State, lines: seq<string>, ask: nat -> Option<string>, from: nat)
    requires from <= |lines|
    ensures var t := Replay(s, lines, ask, from);
      from <= Stop(t, lines) <= |lines| &&
      t.last.title == TitleAfter(s.title, lines, from, Stop(t, lines))
    decreases |lines| - from
  {
    ReplayStops(s, lines, ask, from);
    if from < |lines| {
      match Decode(lines[from])
      case Failure(f) =>
      case Success(e) =>
        var next := Handle(s, e, ask(from));
        ReplayStep(s, lines, ask, from, e);
        assert next.title == Retitled(s.title, lines[from]);
        ReplayTitle(next, lines, ask, from + 1);
    }
  }

  /** The read loop never touches the text field. */
  lemma {:induction false} ReplayKeepsField(s: State, lines: seq<string>, ask: nat -> Option<string>, from: nat)
    requires from <= |lines|
    ensures Replay(s, lines, ask, from).last.field == s.field
    decreases |lines| - from
  {
    if from < |lines| {
      match Decode(lines[from])
      case Failure(f) =>
      case Success(e) =>
        ReplayStep(s, lines, ask, from, e);
        ReplayKeepsField(Handle(s, e, ask(from)), lines, ask, from + 1);
    }
  }

  /**
    A new client has no text in its field, and neither the read loop, nor
    typing, nor the Return key can put text into a field that is not editable.
   */
  lemma TextOnlyOnceAcceptedIsInvariant(s: State, lines: seq<string>, ask: nat -> Option<string>, text: string)
    requires TextOnlyOnceAccepted(s)
    ensures TextOnlyOnceAccepted(Initial())
    ensures TextOnlyOnceAccepted(Replay(s, lines, ask, 0).last)
    ensures TextOnlyOnceAccepted(Edit(s, text))
    ensures TextOnlyOnceAccepted(Submit(s))
  {
    ReplayKeepsField(s, lines, ask, 0);
    ReplaySendFlag(s, lines, ask, 0);
  }

  /**
    What the user types is sent verbatim and the field is cleared; before the
    name is accepted the field cannot be typed into, so Return sends only an
    empty line.
   */
  lemma TypedTextIsSentVerbatim(s: State, text: string)
    ensures s.canSend ==> Submit(Edit(s, text)).sent == s.sent + [text]
    ensures Submit(Edit(s, text)).field == ""
    ensures !s.canSend && TextOnlyOnceAccepted(s) ==> Submit(Edit(s, text)).sent == s.sent + [""]
  {
  }

  /** Sequence concatenation is associative. */
  lemma AppendAssoc<T>(a: seq<T>, b: seq<T>, c: seq<T>)
    ensures a + b + c == a + (b + c)
  {
  }

  /** One completed line of the read loop. */
  lemma ReplayStep(s: State, lines: seq<string>, ask: nat -> Option<string>, from: nat, e: Event)
    requires from < |lines| && Decode(lines[from]) == Success(e)
    ensures Replay(s, lines, ask, from) == Replay(Handle(s, e, ask(from)), lines, ask, from + 1)
  {
  }

  /** How the lines of the handshake scenario below decode. */
  lemma ScenarioLines(taken: string, chosen: string, text: string)
    ensures Decode("SUBMITNAME") == Success(SubmitNameRequest)
    ensures Decode("NAMEUSED " + taken) == Success(NameUsed(taken))
    ensures Decode("NAMEACCEPTED " + chosen) == Success(NameAccepted(chosen))
    ensures Decode("MESSAGE " + text) == Success(ChatMessage(text))
  {
    assert Decode("SUBMITNAME") == Success(SubmitNameRequest) by {
      BareKeywordIgnoresRest(SUBMITNAME, "");
      assert Spelling(SUBMITNAME) + "" == "SUBMITNAME";
    }
    assert Decode("NAMEUSED " + taken) == Success(NameUsed(taken)) by {
      PayloadRoundTrip(NAMEUSED, ' ', taken);
      assert Spelling(NAMEUSED) + [' '] + taken == "NAMEUSED " + taken;
    }
    assert Decode("NAMEACCEPTED " + chosen) == Success(NameAccepted(chosen)) by {
      PayloadRoundTrip(NAMEACCEPTED, ' ', chosen);
      assert Spelling(NAMEACCEPTED) + [' '] + chosen == "NAMEACCEPTED " + chosen;
    }
    assert Decode("MESSAGE " + text) == Success(ChatMessage(text)) by {
      PayloadRoundTrip(MESSAGE, ' ', text);
      assert Spelling(MESSAGE) + [' '] + text == "MESSAGE " + text;
    }
  }

  /** The server lines of a handshake with one rejected name, then a chat message. */
  function ScenarioInput(taken: string, chosen: string, text: string): seq<string>
  {
    ["SUBMITNAME", "NAMEUSED " + taken, "SUBMITNAME", "NAMEACCEPTED " + chosen, "MESSAGE " + text]
  }

  /** The user answers the first name dialog with `taken` and every later one with `chosen`. */
  function ScenarioAnswers(taken: string, chosen: string): nat -> Option<string>
  {
    i => if i == 0 then Some(taken) else Some(chosen)
  }

  /** The rejected first name: one reply written, one notice shown, sending still disabled. */
  lemma ScenarioRejection(taken: string, chosen: string, text: string)
    ensures Replay(Initial(), ScenarioInput(taken, chosen, text), ScenarioAnswers(taken, chosen), 0)
         == Replay(State(false, InitialTitle, "", [], [NameUsedNotice(taken)], [taken]),
                   ScenarioInput(taken, chosen, text), ScenarioAnswers(taken, chosen), 2)
  {
    var lines, ask := ScenarioInput(taken, chosen, text), ScenarioAnswers(taken, chosen);
    ScenarioLines(taken, chosen, text);
    var s1 := Handle(Initial(), SubmitNameRequest, ask(0));
    assert s1 == State(false, InitialTitle, "", [], [], [taken]);
    ReplayStep(Initial(), lines, ask, 0, SubmitNameRequest);
    ReplayStep(s1, lines, ask, 1, NameUsed(taken));
    assert Handle(s1, NameUsed(taken), ask(1)) == State(false, InitialTitle, "", [], [NameUsedNotice(taken)], [taken]);
  }

  /** The accepted second name and the chat message that follows it. */
  lemma ScenarioAcceptance(taken: string, chosen: string, text: string)
    ensures Replay(State(false, InitialTitle, "", [], [NameUsedNotice(taken)], [taken]),
                   ScenarioInput(taken, chosen, text), ScenarioAnswers(taken, chosen), 2)
         == Trace(State(true, InitialTitle + " - " + chosen, "", [Entry(text + "\n", Black)],
                        [NameUsedNotice(taken)], [taken, chosen]), EndOfInput)
  {
    var lines, ask := ScenarioInput(taken, chosen, text), ScenarioAnswers(taken, chosen);
    ScenarioLines(taken, chosen, text);
    var s2 := State(false, InitialTitle, "", [], [NameUsedNotice(taken)], [taken]);
    var s3 := Handle(s2, SubmitNameRequest, ask(2));
    ReplayStep(s2, lines, ask, 2, SubmitNameRequest);
    var s4 := Handle(s3, NameAccepted(chosen), ask(3));
    ReplayStep(s3, lines, ask, 3, NameAccepted(chosen));
    ReplayStep(s4, lines, ask, 4, ChatMessage(text));
  }

  /**
    A handshake with one rejected name: the first name is refused and leaves
    sending disabled, the second is accepted and enables it, and the chat
    message that follows lands in the transcript in black.
   */
  lemma HandshakeScenario(taken: string, chosen: string, text: string)
    ensures var t := Replay(Initial(), ScenarioInput(taken, chosen, text), ScenarioAnswers(taken, chosen), 0);
      && t.outcome == EndOfInput
      && t.last.canSend
      && t.last.sent == [taken, chosen]
      && t.last.notices == [NameUsedNotice(taken)]
      && t.last.title == "Chatter - " + chosen
      && t.last.transcript == [Entry(text + "\n", Black)]
  {
    ScenarioRejection(taken, chosen, text);
    ScenarioAcceptance(taken, chosen, text);
  }
}
