/**
 * The admin list column of chatbot/admin.py: `ChatMessageAdmin.short_message`,
 * which shortens long messages for display.
 */
module Admin {
  import opened Text
  import opened Models

  /** `max_length` in `short_message`. */
  const MaxLength: nat := 50

  /** `short_message(obj)`: a message of at most 50 characters is shown as it
      is; a longer one is cut to its first 50 characters followed by "...". */
  function ShortMessage(obj: ChatMessage): (r: string)
    ensures |r| <= MaxLength + 3
    ensures var n := if |obj.message| < MaxLength then |obj.message| else MaxLength;
      n <= |r| && r[..n] == obj.message[..n]
  {
    if |obj.message| > MaxLength then obj.message[..MaxLength] + "..." else obj.message
  }

  /** The two cases of `short_message`, stated through the slice `message[:50]`. */
  lemma ShortMessageCases(obj: ChatMessage)
    ensures |obj.message| <= MaxLength ==> ShortMessage(obj) == obj.message
    ensures |obj.message| > MaxLength ==>
      ShortMessage(obj) == Take(obj.message, MaxLength) + "..." && |ShortMessage(obj)| == MaxLength + 3
  {
  }

  /** Shortening an already shortened message changes nothing. */
  lemma ShortMessageIdempotent(obj: ChatMessage)
    ensures var once := ShortMessage(obj);
      ShortMessage(obj.(message := once)) == once
  {
  }

  /** A message is shown unchanged exactly when it is short enough, or when it
      already has the shortened shape: 50 characters followed by "...". */
  lemma ShortMessageUnchangedIff(obj: ChatMessage)
    ensures ShortMessage(obj) == obj.message <==>
      |obj.message| <= MaxLength || (|obj.message| == MaxLength + 3 && obj.message[MaxLength..] == "...")
  {
  }

  /** The record's display form and the admin column show the same 50-character
      preview; they differ only in the sender tag and in `__str__` adding the
      ellipsis to short messages too. */
  lemma StrAgreesWithShortMessage(m: ChatMessage)
    ensures |m.message| > MaxLength ==> Str(m) == Sender(m) + ": " + ShortMessage(m)
    ensures |m.message| <= MaxLength ==> Str(m) == Sender(m) + ": " + ShortMessage(m) + "..."
  {
  }
}
