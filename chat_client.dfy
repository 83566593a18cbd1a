/**
  The chat client object: the fields its event handlers and read loop update in
  place, and the methods that update them. The handlers and the read loop are
  tied to Edit, Submit, Receive and Replay of module Session, where their
  properties are proved; the four helpers state the one field they append to.
 */
module Chat {
  import opened Wrappers
  import opened Protocol
  import opened Session

  class ChatClient {
    /** Whether the text field is editable, i.e. whether the user may send. */
    var canSend: bool
    /** The window title. */
    var title: string
    /** The text currently in the text field. */
    var field: string
    /** The styled transcript pane. */
    var transcript: seq<Entry>
    /** The error dialogs shown so far. */
    var notices: seq<Notice>
    /** The lines written to the server so far. */
    var sent: seq<string>

    function Snapshot(): State
      reads this
    {
      State(canSend, title, field, transcript, notices, sent)
    }

    /** Builds the window with a text field that is not yet editable. */
    constructor ()
      ensures Snapshot() == Initial()
    {
      canSend := false;
      title := InitialTitle;
      field := "";
      transcript := [];
      notices := [];
      sent := [];
    }

    /** Inserts `msg` at the end of the pane in colour `c`. */
    method AppendToPane(msg: string, c: Colour)
      modifies this`transcript
      ensures transcript == old(transcript) + [Entry(msg, c)]
    {
      transcript := transcript + [Entry(msg, c)];
    }

    /** Writes one line to the server. */
    method Println(line: string)
      modifies this`sent
      ensures sent == old(sent) + [line]
    {
      sent := sent + [line];
    }

    /** The dialog for an empty name. */
    method ShowEmptyName()
      modifies this`notices
      ensures notices == old(notices) + [EmptyNameNotice]
    {
      notices := notices + [EmptyNameNotice];
    }

    /** The dialog for a name already in use. */
    method ShowNameUsed(name: string)
      modifies this`notices
      ensures notices == old(notices) + [NameUsedNotice(name)]
    {
      notices := notices + [NameUsedNotice(name)];
    }

    /** The user types `text` into the field; a field that is not editable keeps its text. */
    method TypeText(text: string)
      modifies this`field
      ensures Snapshot() == Edit(old(Snapshot()), text)
    {
      if canSend {
        field := text;
      }
    }

    /**
      The Return key's handler: writes the field's text as one line and clears
      the field. It does not consult the field's editability.
     */
    method OnReturn()
      modifies this`sent, this`field
      ensures Snapshot() == Submit(old(Snapshot()))
    {
      Println(field);
      field := "";
    }

    /**
      One pass of the read loop's body on `line`; `answer` is what the name
      dialog returns if the line asks for a name. A payload cut that throws
      leaves every field as it was and is returned as the fault.
     */
    method Step(line: string, answer: Option<string>) returns (fault: Option<Fault>)
      modifies this
      ensures fault.None? ==> Receive(old(Snapshot()), line, answer) == Success(Snapshot())
      ensures fault.Some? ==> Receive(old(Snapshot()), line, answer) == Failure(fault.value)
      ensures fault.Some? ==> Snapshot() == old(Snapshot())
    {
      match Decode(line)
      case Failure(f) =>
        fault := Some(f);
      case Success(e) =>
        fault := None;
        match e
        case SubmitNameRequest =>
          Println(PrintedLine(answer));
        case NameEmpty =>
          ShowEmptyName();
        case NameUsed(name) =>
          ShowNameUsed(name);
        case NameAccepted(name) =>
          title := InitialTitle + " - " + name;
          canSend := true;
        case ServerNotice(text) =>
          AppendToPane(text + "\n", Blue);
        case ChatMessage(text) =>
          AppendToPane(text + "\n", Black);
        case Unrecognized =>
    }

    /**
      The read loop: handles `lines` in arrival order until the input ends or a
      payload cut throws. `ask(i)` is the name dialog's answer for line `i`.
     */
    method Run(lines: seq<string>, ask: nat -> Option<string>) returns (outcome: Outcome)
      modifies this
      ensures Trace(Snapshot(), outcome) == Replay(old(Snapshot()), lines, ask, 0)
      ensures old(canSend) ==> canSend
      ensures old(transcript) <= transcript && old(sent) <= sent
      ensures field == old(field)
      ensures outcome.Aborted? ==> outcome.at < |lines| && lines[outcome.at] in BareKeywordLines
      ensures forall i :: 0 <= i < (if outcome.Aborted? then outcome.at else |lines|) ==> lines[i] !in BareKeywordLines
    {
      ghost var start := Snapshot();
      var i := 0;
      while i < |lines|
        invariant 0 <= i <= |lines|
        invariant Replay(start, lines, ask, 0) == Replay(Snapshot(), lines, ask, i)
      {
        var fault := Step(lines[i], ask(i));
        if fault.Some? {
          outcome := Aborted(i, fault.value);
          FinalFacts(start, lines, ask);
          return;
        }
        i := i + 1;
      }
      outcome := EndOfInput;
      FinalFacts(start, lines, ask);
    }
  }

  /** The facts Run states about its final state, drawn from the lemmas about Replay. */
  lemma FinalFacts(s: State, lines: seq<string>, ask: nat -> Option<string>)
    ensures var t := Replay(s, lines, ask, 0);
      (s.canSend ==> t.last.canSend) &&
      s.transcript <= t.last.transcript && s.sent <= t.last.sent && t.last.field == s.field &&
      (t.outcome.Aborted? ==> t.outcome.at < |lines| && lines[t.outcome.at] in BareKeywordLines) &&
      (forall i :: 0 <= i < Stop(t, lines) ==> lines[i] !in BareKeywordLines)
  {
    ReplayStops(s, lines, ask, 0);
    ReplaySendFlag(s, lines, ask, 0);
    ReplayTranscript(s, lines, ask, 0);
    ReplaySent(s, lines, ask, 0);
    ReplayKeepsField(s, lines, ask, 0);
  }
}
