/**
  The client's side of the chat protocol: how one line received from the server
  becomes an event. The line is tested against six control words, in a fixed
  order, with a case-sensitive prefix test; four of them carry a payload that
  starts one character (the separator) after the control word.
 */
module Protocol {
  import opened Wrappers

  /** What one server line means to the client. */
  datatype Event =
    | SubmitNameRequest
    | NameEmpty
    | NameUsed(name: string)
    | NameAccepted(name: string)
    | ServerNotice(text: string)
    | ChatMessage(text: string)
    | Unrecognized

  /** Java's StringIndexOutOfBoundsException: a suffix was asked for from past the end. */
  datatype Fault = IndexOutOfRange(begin: nat, length: nat)

  /** Java's `s.startsWith(prefix)`: exact, case-sensitive comparison of the first characters. */
  predicate StartsWith(s: string, prefix: string): (b: bool)
    ensures b <==> |prefix| <= |s| && s[..|prefix|] == prefix
  {
    prefix <= s
  }

  /** Java's `s.substring(begin)`: the characters from index `begin` on; it throws when `begin` exceeds the length. */
  function Substring(s: string, begin: nat): (r: Result<string, Fault>)
    ensures r.Success? <==> begin <= |s|
    ensures r.Success? ==> s == s[..begin] + r.value
    ensures r.Failure? ==> r.error == IndexOutOfRange(begin, |s|)
  {
    if begin <= |s| then Success(s[begin..]) else Failure(IndexOutOfRange(begin, |s|))
  }

  /** Applies `f` to a successful cut; a failed cut's fault passes through unchanged. */
  function MapSuccess(r: Result<string, Fault>, f: string -> Event): Result<Event, Fault>
  {
    match r
    case Success(v) => Success(f(v))
    case Failure(e) => Failure(e)
  }

  /**
    The dispatch at the head of the client's read loop: first matching control
    word wins, payloads are cut at the fixed offsets the client uses, and a line
    that matches no control word is ignored. Cutting the payload of a line that
    is exactly a payload-carrying control word throws.
   */
  function Decode(line: string): (r: Result<Event, Fault>)
    // a name request is recognised by its prefix alone, whatever follows it
    ensures r == Success(SubmitNameRequest) <==> StartsWith(line, "SUBMITNAME")
    // the only cut that can throw is one that starts just past the end of the line
    ensures r.Failure? ==> r.error == IndexOutOfRange(|line| + 1, |line|)
  {
    if StartsWith(line, "SUBMITNAME") then Success(SubmitNameRequest)
    else if StartsWith(line, "NAMEEMPTY") then Success(NameEmpty)
    else if StartsWith(line, "NAMEUSED") then MapSuccess(Substring(line, 9), p => NameUsed(p))
    else if StartsWith(line, "NAMEACCEPTED") then MapSuccess(Substring(line, 13), p => NameAccepted(p))
    else if StartsWith(line, "SERVERMESSAGE") then MapSuccess(Substring(line, 14), p => ServerNotice(p))
    else if StartsWith(line, "MESSAGE") then MapSuccess(Substring(line, 8), p => ChatMessage(p))
    else Success(Unrecognized)
  }

  // ---------------------------------------------------------------------------
  // An order-free reference reading of the same dispatch
  // ---------------------------------------------------------------------------

  /** The six control words of the protocol. */
  datatype Keyword = SUBMITNAME | NAMEEMPTY | NAMEUSED | NAMEACCEPTED | SERVERMESSAGE | MESSAGE

  function Spelling(k: Keyword): string
  {
    match k
    case SUBMITNAME => "SUBMITNAME"
    case NAMEEMPTY => "NAMEEMPTY"
    case NAMEUSED => "NAMEUSED"
    case NAMEACCEPTED => "NAMEACCEPTED"
    case SERVERMESSAGE => "SERVERMESSAGE"
    case MESSAGE => "MESSAGE"
  }

  predicate HasPayload(k: Keyword)
  {
    k in {NAMEUSED, NAMEACCEPTED, SERVERMESSAGE, MESSAGE}
  }

  /** The event a keyword's branch produces from payload `p` (ignored by the two bare keywords). */
  function EventOf(k: Keyword, p: string): Event
  {
    match k
    case SUBMITNAME => SubmitNameRequest
    case NAMEEMPTY => NameEmpty
    case NAMEUSED => NameUsed(p)
    case NAMEACCEPTED => NameAccepted(p)
    case SERVERMESSAGE => ServerNotice(p)
    case MESSAGE => ChatMessage(p)
  }

  /** What the branch of keyword `k` makes of `line`: the payload starts after the keyword and one separator. */
  function Branch(k: Keyword, line: string): Result<Event, Fault>
  {
    if !HasPayload(k) then Success(EventOf(k, ""))
    else if |Spelling(k)| + 1 <= |line| then Success(EventOf(k, line[|Spelling(k)| + 1..]))
    else Failure(IndexOutOfRange(|Spelling(k)| + 1, |line|))
  }

  /** The keywords a line starts with, regardless of the order in which they are tried. */
  function Matches(line: string): set<Keyword>
  {
    set k: Keyword | StartsWith(line, Spelling(k))
  }

  /** The lines whose payload cut throws: a payload-carrying keyword with nothing after it. */
  const BareKeywordLines: set<string> := {"NAMEUSED", "NAMEACCEPTED", "SERVERMESSAGE", "MESSAGE"}

  // ---------------------------------------------------------------------------
  // Lemmas
  // ---------------------------------------------------------------------------

  /** Two strings that are both prefixes of one line: the shorter is a prefix of the longer. */
  lemma PrefixesOfOneLine(line: string, a: string, b: string)
    requires a <= line && b <= line && |a| <= |b|
    ensures a <= b
  {
    assert a == line[..|a|];
    assert b[..|a|] == line[..|a|];
  }

  /** No control word is a prefix of another, and no two share a spelling. */
  lemma {:induction false} KeywordsPrefixFree(k1: Keyword, k2: Keyword)
    requires k1 != k2
    ensures !(Spelling(k1) <= Spelling(k2))
  {
    // the spellings are told apart by their first, second or fifth character
    var a, b := Spelling(k1), Spelling(k2);
    var i := if a[0] != b[0] then 0 else if a[1] != b[1] then 1 else 4;
    assert a[i] != b[i];
  }

  /** At most one control word matches any line, so the order of the tests cannot matter. */
  lemma {:induction false} AtMostOneMatch(line: string, k1: Keyword, k2: Keyword)
    requires k1 in Matches(line) && k2 in Matches(line)
    ensures k1 == k2
  {
    if k1 != k2 {
      var a, b := Spelling(k1), Spelling(k2);
      if |a| <= |b| {
        PrefixesOfOneLine(line, a, b);
        KeywordsPrefixFree(k1, k2);
      } else {
        PrefixesOfOneLine(line, b, a);
        KeywordsPrefixFree(k2, k1);
      }
    }
  }

  /**
    Decode agrees with the order-free reading: a line that matches control word
    `k` decodes to what `k`'s branch makes of it, and a line that matches none
    decodes to Unrecognized. The fixed offsets 9, 13, 14 and 8 are exactly the
    control word's length plus one.
   */
  lemma {:induction false} DecodeIsOrderFree(line: string)
    ensures Matches(line) == {} <==> Decode(line) == Success(Unrecognized)
    ensures forall k :: k in Matches(line) ==> Decode(line) == Branch(k, line)
  {
    forall k1, k2 | k1 in Matches(line) && k2 in Matches(line) ensures k1 == k2 {
      AtMostOneMatch(line, k1, k2);
    }
    if StartsWith(line, "SUBMITNAME") {
      assert SUBMITNAME in Matches(line);
    } else if StartsWith(line, "NAMEEMPTY") {
      assert NAMEEMPTY in Matches(line);
    } else if StartsWith(line, "NAMEUSED") {
      assert NAMEUSED in Matches(line);
    } else if StartsWith(line, "NAMEACCEPTED") {
      assert NAMEACCEPTED in Matches(line);
    } else if StartsWith(line, "SERVERMESSAGE") {
      assert SERVERMESSAGE in Matches(line);
    } else if StartsWith(line, "MESSAGE") {
      assert MESSAGE in Matches(line);
    } else {
      forall k: Keyword ensures !StartsWith(line, Spelling(k)) {
      }
    }
  }

  /**
    Payload round trip: a payload-carrying control word, any separator
    character and any payload decode to exactly that payload.
   */
  lemma {:induction false} PayloadRoundTrip(k: Keyword, sep: char, payload: string)
    requires HasPayload(k)
    ensures Decode(Spelling(k) + [sep] + payload) == Success(EventOf(k, payload))
  {
    var line := Spelling(k) + [sep] + payload;
    assert Spelling(k) <= line;
    assert k in Matches(line);
    DecodeIsOrderFree(line);
    assert line[|Spelling(k)| + 1..] == payload;
  }

  /** A bare control word may be followed by anything; it still decodes to its event. */
  lemma {:induction false} BareKeywordIgnoresRest(k: Keyword, rest: string)
    requires !HasPayload(k)
    ensures Decode(Spelling(k) + rest) == Success(EventOf(k, ""))
  {
    var line := Spelling(k) + rest;
    assert Spelling(k) <= line;
    assert k in Matches(line);
    DecodeIsOrderFree(line);
  }

  /**
    Decoding fails exactly on a line that is a payload-carrying control word
    and nothing else, and then with the offset one past the line's end.
   */
  lemma {:induction false} DecodeFailsOnlyOnBareKeyword(line: string)
    ensures Decode(line).Failure? <==> line in BareKeywordLines
    ensures Decode(line).Failure? ==> Decode(line).error == IndexOutOfRange(|line| + 1, |line|)
  {
    DecodeIsOrderFree(line);
    if line in BareKeywordLines {
      var k :| HasPayload(k) && Spelling(k) == line;
      assert k in Matches(line);
    } else if k :| k in Matches(line) {
      // a line that starts with the control word and is no longer is the control word itself
      assert |line| <= |Spelling(k)| ==> line == Spelling(k);
    }
  }
}
