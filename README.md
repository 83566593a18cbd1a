# Chat client: line decoder and session state

A Dafny model of the Swing chat client `Chat.ChatClient` (java-sockets). The client
connects to a chat server and reads it line by line. Each line is tested, in a fixed
order, against six case-sensitive control words: `SUBMITNAME`, `NAMEEMPTY`, `NAMEUSED`,
`NAMEACCEPTED`, `SERVERMESSAGE` and `MESSAGE`. The client then reacts to the line:

- it asks the user for a screen name and writes it back;
- it shows an error dialog;
- it puts the accepted name in the window title and makes the text field editable;
- or it appends a blue server notice or a black chat message to the transcript pane.

Pressing Return writes the text field's contents to the server and clears the field.

The model has four modules:

- `Wrappers` (`wrappers.dfy`): `Option`, used for the possibly-null answer of the name
  dialog, and `Result`, used for an operation that throws.
- `Protocol` (`protocol.dfy`): `Decode` follows the prefix tests and the fixed payload
  offsets 9, 13, 14 and 8 exactly. A payload cut past the end of the line is Java's
  `StringIndexOutOfBoundsException`, returned as a `Fault`. `Branch` and `Matches` give
  an order-free reading of the same dispatch, and the lemmas relate the two.
- `Session` (`session.dfy`): the client's state as a value, namely:
  - the send flag, which is the field's editability;
  - the title;
  - the field's text;
  - the transcript;
  - the error dialogs shown;
  - the lines written.

  It also holds the pure effect of one line (`Handle`, `Receive`), of typing (`Edit`)
  and of Return (`Submit`), and the whole read loop over a finite input (`Replay`),
  together with the lemmas about them.
- `Chat` (`chat_client.dfy`): the class `ChatClient`, whose fields the handlers and the
  read loop update in place. The handlers and the read loop are tied to `Edit`, `Submit`,
  `Receive` and `Replay` of `Session`. The four helpers (`AppendToPane`, `Println`,
  `ShowEmptyName`, `ShowNameUsed`) state the one field they append to.

The read loop stops in two ways. It stops when the input ends. It also stops when a line
consists of a payload-carrying control word and nothing more. That line's `substring`
throws, and the exception leaves the loop.

The name dialog is an oracle `ask: nat -> Option<string>`. It gives the answer for the
line at each index, and `None` stands for the dialog being cancelled.

Four behaviours of the code are easy to miss, and the model keeps them:

- A cancelled name dialog returns `null`. `PrintWriter.println` writes it as the four
  characters `null`, not as an empty line (`PrintedLine`).
- Decoding is not total. A line that is exactly `NAMEUSED`, `NAMEACCEPTED`,
  `SERVERMESSAGE` or `MESSAGE` makes the cut throw and ends the read loop
  (`DecodeFailsOnlyOnBareKeyword`, `ReplayStops`).
- Name events that arrive after a name was accepted are not ignored. They are handled
  as before: a name request is answered again, and `NAMEACCEPTED` sets the title again
  (`Handle`).
- The Return handler has no guard. Before a name is accepted, Return still writes the
  field as a line, and the field is then necessarily empty (`Submit`,
  `TypedTextIsSentVerbatim`, `TextOnlyOnceAcceptedIsInvariant`).

## Model

| member | source | states |
|---|---|---|
| Protocol.Decode | src/Chat/ChatClient.java:111-125 | a line decodes to a name request iff it starts with SUBMITNAME; a failure is always the cut one past the line's end (the other properties are in DecodeIsOrderFree, PayloadRoundTrip and DecodeFailsOnlyOnBareKeyword) |
| Protocol.StartsWith | src/Chat/ChatClient.java:111-123 | a string starts with a prefix iff the prefix is no longer than it and equals its first characters exactly (case-sensitive) |
| Protocol.Substring | src/Chat/ChatClient.java:116-124 | a cut succeeds exactly when the offset is at most the length; the line is then the skipped prefix followed by the result; otherwise it fails with that offset and length |
| Protocol.KeywordsPrefixFree | src/Chat/ChatClient.java:111-125 | no control word is a prefix of a different one |
| Protocol.AtMostOneMatch | src/Chat/ChatClient.java:111-125 | a line starts with at most one control word |
| Protocol.DecodeIsOrderFree | src/Chat/ChatClient.java:109-125 | the ordered if-chain agrees with the order-free reading: a line matching keyword k decodes to k's branch, whose payload starts one past the keyword; a line matching none is Unrecognized, and only such a line |
| Protocol.PayloadRoundTrip | src/Chat/ChatClient.java:115-124 | a payload-carrying keyword, any one separator and any payload decode to exactly that payload |
| Protocol.BareKeywordIgnoresRest | src/Chat/ChatClient.java:111-114 | SUBMITNAME and NAMEEMPTY followed by anything decode to their event |
| Protocol.DecodeFailsOnlyOnBareKeyword | src/Chat/ChatClient.java:115-124 | decoding fails if and only if the line is a payload-carrying keyword alone, and then at offset length+1 |
| Session.Handle | src/Chat/ChatClient.java:111-125 | the send flag is set after a line iff it was set before or the line accepted a name; only an accepted name changes the title, to "Chatter - " and the name; the field is untouched; an unrecognized line changes nothing |
| Session.Initial | src/Chat/ChatClient.java:42-62 | a new client's title is Chatter, its field is not editable and holds no text, and nothing has been shown or written |
| Session.PrintedLine | src/Chat/ChatClient.java:112 | a chosen name is written verbatim; a cancelled dialog's null is written as the four characters null |
| Session.HandleAppendsOnly | src/Chat/ChatClient.java:111-124 | only a name request writes, exactly the printed answer; the transcript gains exactly the blue notice or black message text plus a newline; the notices gain exactly the empty-name or name-used dialog |
| Session.Receive | src/Chat/ChatClient.java:110-125 | one loop body succeeds iff the line decodes, fails only with the cut one past the line's end, leaves the state alone on an unrecognized line and never touches the field |
| Session.Edit | src/Chat/ChatClient.java:58 | typing changes the field only while it is editable, and nothing else |
| Session.Submit | src/Chat/ChatClient.java:71-75 | Return writes the field's text as one line and clears the field, leaving the rest alone |
| Session.Replay | src/Chat/ChatClient.java:109-126 | the read loop over the lines from an index on; an abort names a line at or after that index (the loop's properties are in ReplayStops, ReplaySendFlag, ReplaySent, ReplayTranscript, ReplayNotices, ReplayTitle and ReplayKeepsField) |
| Session.UnmatchedLineChangesNothing | src/Chat/ChatClient.java:109-125 | a line starting with no control word leaves the whole state unchanged |
| Session.ReplayStops | src/Chat/ChatClient.java:109-126 | the loop stops at the first line that is a bare payload-carrying keyword: every line before the stop is not one, the abort happens on one, and the input is consumed to its end when none occurs |
| Session.ReplaySendFlag | src/Chat/ChatClient.java:118-120 | after the loop the flag is set iff it was set before or some completed line accepted a name |
| Session.SendFlagIsSticky | src/Chat/ChatClient.java:118-120 | once set, the send flag stays set through the loop |
| Session.ReplaySent | src/Chat/ChatClient.java:111-112 | the loop writes, in order, exactly the answers to the name requests it completed, after what was already written |
| Session.ReplayTranscript | src/Chat/ChatClient.java:121-124 | the transcript is only appended to, with each completed message's entry in arrival order |
| Session.ReplayNotices | src/Chat/ChatClient.java:113-117 | the error dialogs are the old ones plus, in order, the dialog of each completed empty-name or name-used line |
| Session.ReplayTitle | src/Chat/ChatClient.java:118-119 | the title after the loop is "Chatter - " and the name of the last completed accepted name, or the old title if none |
| Session.ReplayKeepsField | src/Chat/ChatClient.java:109-126 | the read loop never changes the text field |
| Session.TextOnlyOnceAcceptedIsInvariant | src/Chat/ChatClient.java:55-75 | a new client has no text, and the loop, typing and Return keep "no text while not editable" |
| Session.TypedTextIsSentVerbatim | src/Chat/ChatClient.java:71-75 | typed text is sent verbatim while editable; before that Return can send only an empty line; the field is cleared either way |
| Session.HandshakeScenario | src/Chat/ChatClient.java:28-35 | a rejected name, then an accepted one, then a message: two replies, one notice, sending enabled, title "Chatter - name", one black entry |
| Chat.ChatClient.constructor | src/Chat/ChatClient.java:55-58 | a new client has title Chatter, a non-editable empty field and nothing shown or sent |
| Chat.ChatClient.AppendToPane | src/Chat/ChatClient.java:79-87 | appends exactly one entry with the given text and colour |
| Chat.ChatClient.Println | src/Chat/ChatClient.java:112 | writes exactly one line |
| Chat.ChatClient.ShowEmptyName | src/Chat/ChatClient.java:94-96 | records one empty-name dialog |
| Chat.ChatClient.ShowNameUsed | src/Chat/ChatClient.java:98-101 | records one name-used dialog for the given name |
| Chat.ChatClient.TypeText | src/Chat/ChatClient.java:58 | the new state is Edit of the old |
| Chat.ChatClient.OnReturn | src/Chat/ChatClient.java:71-75 | the new state is Submit of the old |
| Chat.ChatClient.Step | src/Chat/ChatClient.java:110-125 | one loop body: the new state is Receive of the old, or the fault with the state unchanged |
| Chat.ChatClient.Run | src/Chat/ChatClient.java:109-126 | the final state and outcome are Replay of the initial state; the flag is never cleared, transcript and sent lines only grow, the field is untouched, the loop aborts on the first bare keyword line and on no other |

## Left out

- The socket, port 59001, `Scanner` and `PrintWriter` are not modelled. The input is a finite sequence of lines and the output a sequence of written lines. An `IOException` and the closing of the socket are not modelled either.
- Swing layout and styling are not modelled: the frame, the scroll pane, the preferred size, the dialog texts and titles, and the hiding and disposing of the frame in `finally`. The dialogs are recorded only by kind and name.
- The event thread and the read loop run concurrently in the source. The model treats each handler call and each loop step as atomic.
- `main` (the argument check and the frame's close operation) is not modelled.
- `src/Sequential/DateServer.java` is not part of this model.
- `appendToPane` catches any `Exception` raised by the insertion and prints it to standard output. The model appends unconditionally: an insertion at the document's end is not expected to throw, so that path is not modelled.
- Chat.ChatClient.TypeText: typing is abstracted to "the field's text becomes `text`" while the field is editable. The editing keystrokes are not modelled.
- Chat.ChatClient.OnReturn: the model does not cover a Return press before `run` has created the writer.
- Strings are sequences of characters. UTF-16 code units, line terminators and the platform charset are not modelled.
