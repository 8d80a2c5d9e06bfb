/** Messages and the two localStorage slots the chat writes: the
    conversation under 'neurachat_conversations' and the theme under
    'neurachat_theme'. JSON encoding is abstracted away: a slot holds the
    decoded log, or is absent, or holds text that does not parse. */
module Persistence {

  datatype Option<T> = None | Some(value: T)

  datatype Sender = User | Ai

  /** A chat message; `id` comes from the clock and `timestamp` is the
      locale-formatted time, both supplied from outside. */
  datatype Message = Message(id: int, sender: Sender, content: string, timestamp: string)

  /** The conversations slot. An empty string fails the truthiness test of
      loadState exactly like a missing item, so it is folded into Absent. */
  datatype MessagesSlot = Absent | Stored(log: seq<Message>) | Corrupt

  /** The retention cap, config.maxMessages. */
  const MaxMessages: nat := 100

  /** The browser's localStorage, reduced to the two slots the chat uses. */
  class Storage {
    var conversations: MessagesSlot
    var theme: Option<string>

    constructor (conversations: MessagesSlot, theme: Option<string>)
      ensures this.conversations == conversations && this.theme == theme
    {
      this.conversations := conversations;
      this.theme := theme;
    }
  }

  function Min(a: int, b: int): int { if a <= b then a else b }

  /** Array.prototype.slice(start) with one argument: a negative start
      counts from the end and is clamped at 0, a non-negative one is
      clamped at the length; the result is the tail from that point. */
  function SliceFrom<T>(s: seq<T>, start: int): (r: seq<T>)
    ensures |r| <= |s| && r == s[|s| - |r|..]
    ensures start < 0 ==> |r| == Min(-start, |s|)
    ensures start >= 0 ==> |r| == |s| - Min(start, |s|)
  {
    var k := if start < 0 then (if |s| + start < 0 then 0 else |s| + start)
             else Min(start, |s|);
    s[k..]
  }

  /** What saveState writes for a log: `slice(-maxMessages)`, the last
      min(|log|, maxMessages) messages in their original order. */
  function Persisted(log: seq<Message>): (r: seq<Message>)
    ensures |r| == Min(|log|, MaxMessages)
    ensures r == log[|log| - |r|..]
    ensures |log| <= MaxMessages ==> r == log
  {
    SliceFrom(log, -(MaxMessages as int))
  }

  /** Persisting what was already persisted changes nothing. */
  lemma PersistedIdempotent(log: seq<Message>)
    ensures Persisted(Persisted(log)) == Persisted(log)
  {
  }

  /** Appending to a reloaded (truncated) log and saving stores the same
      messages as appending to the full log and saving: the cap forgets
      only messages that would be dropped anyway. */
  lemma PersistedAfterReload(log: seq<Message>, m: Message)
    ensures Persisted(Persisted(log) + [m]) == Persisted(log + [m])
  {
    var n := |log|;
    if n >= MaxMessages {
      var p := Persisted(log);
      assert p == log[n - MaxMessages..];
      calc {
        Persisted(p + [m]);
        (p + [m])[1..];
        log[n - MaxMessages + 1..] + [m];
        (log + [m])[n + 1 - MaxMessages..];
        Persisted(log + [m]);
      }
    }
  }

  /** The text saveState writes to the theme slot. */
  function ThemeValue(isDarkMode: bool): string {
    if isDarkMode then "dark" else "light"
  }

  /** loadState's reading of the theme slot: dark exactly when the stored
      text is "dark"; a missing item or any other text means light. */
  function LoadedDarkMode(saved: Option<string>): bool {
    saved == Some("dark")
  }

  /** A saved theme survives a reload. */
  lemma ThemeRoundTrip(isDarkMode: bool)
    ensures LoadedDarkMode(Some(ThemeValue(isDarkMode))) == isDarkMode
  {
  }

  /** loadState's reading of the conversations slot: a missing item leaves
      the log as it was, a stored log replaces it, and unparsable text
      resets it to empty. */
  function LoadedLog(current: seq<Message>, slot: MessagesSlot): seq<Message> {
    match slot
    case Absent => current
    case Stored(log) => log
    case Corrupt => []
  }
}
