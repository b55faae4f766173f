/**
 * The chat-turn record of chatbot/models.py: its fields and defaults,
 * its display form (`__str__`) and its default listing order
 * (`Meta.ordering = ['timestamp']`).
 */
module Models {
  import opened Text

  /** How many characters of the message the display form shows. */
  const PreviewLength: nat := 50

  /** One stored chat turn. The timestamp is a point in time taken from the
      clock when the record is created; a larger value is later. */
  datatype ChatMessage = ChatMessage(
    sessionId: string,
    isUserMessage: bool,
    message: string,
    timestamp: int)

  /** `ChatMessage(session_id=…, message=…)` as created by the ORM: the author
      flag defaults to a user message and the timestamp to the clock reading `now`. */
  function NewChatMessage(sessionId: string, message: string, now: int, isUserMessage: bool := true): (m: ChatMessage)
    ensures m.sessionId == sessionId && m.message == message
    ensures m.isUserMessage == isUserMessage && m.timestamp == now
  {
    ChatMessage(sessionId, isUserMessage, message, now)
  }

  /** A record created without an author flag is a user's message. */
  lemma DefaultIsUserMessage(sessionId: string, message: string, now: int)
    ensures NewChatMessage(sessionId, message, now).isUserMessage
  {
  }

  /** The sender tag of the display form. */
  function Sender(m: ChatMessage): (r: string)
    ensures r == "User" || r == "Bot"
    ensures r == "User" <==> m.isUserMessage
  {
    if m.isUserMessage then "User" else "Bot"
  }

  /** `__str__`: the sender tag, a colon, the first 50 characters of the
      message and an ellipsis that is added whatever the message's length. */
  function Str(m: ChatMessage): (r: string)
    ensures |r| == |Sender(m)| + 2 + |Take(m.message, PreviewLength)| + 3
    ensures |r| <= |Sender(m)| + 2 + PreviewLength + 3
  {
    Sender(m) + ": " + Take(m.message, PreviewLength) + "..."
  }

  /** The display form starts with "User: " for a user's message and with
      "Bot: " for the bot's. */
  lemma StrStartsWithSender(m: ChatMessage)
    ensures m.isUserMessage ==> "User: " <= Str(m)
    ensures !m.isUserMessage ==> "Bot: " <= Str(m)
  {
  }

  /** Between the tag and the ellipsis stands exactly the message's first
      min(|message|, 50) characters, and the display form always ends in "...". */
  lemma StrParts(m: ChatMessage)
    ensures var r, k := Str(m), |Sender(m)| + 2;
      && k + 3 <= |r|
      && r[k..|r| - 3] == m.message[..if |m.message| < PreviewLength then |m.message| else PreviewLength]
      && r[|r| - 3..] == "..."
  {
  }

  /** Two records display alike exactly when they have the same author and
      the same first 50 characters: the display form determines those and
      nothing else. */
  lemma StrDeterminedByPreview(a: ChatMessage, b: ChatMessage)
    ensures Str(a) == Str(b) <==>
      a.isUserMessage == b.isUserMessage && Take(a.message, PreviewLength) == Take(b.message, PreviewLength)
  {
    var ra, rb := Str(a), Str(b);
    if ra == rb {
      assert ra[0] == Sender(a)[0] && rb[0] == Sender(b)[0];
      assert a.isUserMessage == b.isUserMessage;
      StrParts(a);
      StrParts(b);
      var k := |Sender(a)| + 2;
      assert Take(a.message, PreviewLength) == ra[k..|ra| - 3];
      assert Take(b.message, PreviewLength) == rb[k..|rb| - 3];
    }
  }

  /** The two display forms the model tests expect (chatbot/tests.py). */
  lemma StrExamples(sessionId: string, t1: int, t2: int)
    ensures Str(NewChatMessage(sessionId, "Hello, bot!", t1, true)) == "User: Hello, bot!..."
    ensures Str(NewChatMessage(sessionId, "Hello, human!", t2, false)) == "Bot: Hello, human!..."
  {
  }

  /** Records in non-decreasing timestamp order. */
  predicate SortedByTimestamp(rs: seq<ChatMessage>)
  {
    forall i, j :: 0 <= i < j < |rs| ==> rs[i].timestamp <= rs[j].timestamp
  }

  /** Places `m` into an ordered listing, after every record that is not later. */
  function InsertByTimestamp(m: ChatMessage, rs: seq<ChatMessage>): (r: seq<ChatMessage>)
    requires SortedByTimestamp(rs)
    ensures SortedByTimestamp(r)
    ensures multiset(r) == multiset(rs) + multiset{m}
    // The head is `m` or the old head: the recursive step needs this to keep
    // the record it puts in front no later than what follows.
    ensures |r| == |rs| + 1 && (r[0] == m || (|rs| > 0 && r[0] == rs[0]))
  {
    if rs == [] then [m]
    else if m.timestamp < rs[0].timestamp then
      SortedCons(m, rs);
      [m] + rs
    else
      var tail := InsertByTimestamp(m, rs[1..]);
      assert rs == [rs[0]] + rs[1..];
      SortedCons(rs[0], tail);
      [rs[0]] + tail
  }

  /** A record no later than the head of an ordered listing can be put in front of it. */
  lemma SortedCons(x: ChatMessage, rs: seq<ChatMessage>)
    requires SortedByTimestamp(rs)
    requires |rs| > 0 ==> x.timestamp <= rs[0].timestamp
    ensures SortedByTimestamp([x] + rs)
  {
  }

  /** `Meta.ordering = ['timestamp']`: the default listing holds the same
      records, ordered by ascending timestamp. */
  function OrderByTimestamp(rs: seq<ChatMessage>): (r: seq<ChatMessage>)
    ensures SortedByTimestamp(r)
    ensures multiset(r) == multiset(rs)
  {
    if rs == [] then []
    else
      assert rs == [rs[0]] + rs[1..];
      InsertByTimestamp(rs[0], OrderByTimestamp(rs[1..]))
  }

  /** The stored records, in the order they were created. */
  datatype Table = Table(rows: seq<ChatMessage>)

  /** `ChatMessage.objects.count()`. */
  function Count(t: Table): (n: nat)
    ensures n == |All(t)|
  {
    assert |multiset(All(t))| == |All(t)| && |multiset(t.rows)| == |t.rows|;
    |t.rows|
  }

  /** `ChatMessage.objects.all()`: every stored record, in the default order. */
  function All(t: Table): (r: seq<ChatMessage>)
    ensures SortedByTimestamp(r)
    ensures multiset(r) == multiset(t.rows)
  {
    OrderByTimestamp(t.rows)
  }

  /** `ChatMessage.objects.create(…)`: stores a new record and returns it. */
  function Create(t: Table, sessionId: string, message: string, now: int, isUserMessage: bool := true): (r: (Table, ChatMessage))
    ensures r.0.rows == t.rows + [r.1]
    ensures r.1 == NewChatMessage(sessionId, message, now, isUserMessage)
  {
    var m := NewChatMessage(sessionId, message, now, isUserMessage);
    (Table(t.rows + [m]), m)
  }

  /** Creating two records raises the count by two; each keeps the text and
      author flag it was given, and both appear in the listing. */
  lemma CreateTwo(t: Table, sessionId: string, text1: string, flag1: bool, now1: int,
                  text2: string, flag2: bool, now2: int)
    ensures var (t1, m1) := Create(t, sessionId, text1, now1, flag1);
      var (t2, m2) := Create(t1, sessionId, text2, now2, flag2);
      && Count(t2) == Count(t) + 2
      && m1.message == text1 && m1.isUserMessage == flag1
      && m2.message == text2 && m2.isUserMessage == flag2
      && m1 in All(t2) && m2 in All(t2)
  {
    var (t1, m1) := Create(t, sessionId, text1, now1, flag1);
    var (t2, m2) := Create(t1, sessionId, text2, now2, flag2);
    assert m1 in multiset(t2.rows) && m2 in multiset(t2.rows);
    assert m1 in multiset(All(t2)) && m2 in multiset(All(t2));
  }
}
