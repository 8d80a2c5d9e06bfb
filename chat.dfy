/** The NeuraChat application object: the conversation state (the message
    log, the theme flag and the reply-pending flag), its synchronisation
    with localStorage, and the user actions that change it. DOM rendering,
    the clock, the locale, Math.random, the confirm() dialog and the timer
    are outside: their results are parameters of the operations. */
module Chat {
  import opened Text
  import opened Responses
  import opened Memory
  import opened Persistence

  class NeuraChat {
    var messages: seq<Message>
    var isDarkMode: bool
    var isTyping: bool
    /** The text captured by the pending setTimeout callback of
        simulateAIResponse, if one is scheduled. */
    var pendingReply: Option<string>
    /** What the memory-status element currently shows. */
    var memoryStatus: MemoryStatus
    /** The browser's localStorage. */
    const store: Storage

    /** A reply is pending exactly while the typing flag is up, and the
        text it answers is not empty. */
    ghost predicate Valid()
      reads this
    {
      (isTyping <==> pendingReply.Some?)
      && (pendingReply.Some? ==> pendingReply.value != [])
    }

    /** The initial `state` object: no messages, light theme, idle. */
    constructor (store: Storage)
      ensures Valid() && this.store == store
      ensures messages == [] && !isDarkMode && !isTyping
      ensures memoryStatus == Empty
    {
      this.store := store;
      messages := [];
      isDarkMode := false;
      isTyping := false;
      pendingReply := None;
      memoryStatus := Empty;
    }

    /** init without the event wiring and the rendering: load the saved
        state, then show the memory status. */
    method Init()
      requires Valid()
      modifies this
      ensures Valid()
      ensures messages == LoadedLog(old(messages), store.conversations)
      ensures isDarkMode == LoadedDarkMode(store.theme)
      ensures memoryStatus == StatusOf(|messages|)
      ensures isTyping == old(isTyping) && pendingReply == old(pendingReply)
    {
      LoadState();
      UpdateMemoryStatus();
    }

    /** loadState: the theme is dark exactly when the stored text is "dark";
        a stored log replaces the messages, unparsable text empties them,
        and a missing item leaves them alone. */
    method LoadState()
      modifies this`messages, this`isDarkMode
      ensures isDarkMode == LoadedDarkMode(store.theme)
      ensures messages == LoadedLog(old(messages), store.conversations)
    {
      isDarkMode := store.theme == Some("dark");
      match store.conversations {
        case Absent =>
        case Stored(log) => messages := log;
        case Corrupt => messages := [];
      }
    }

    /** saveState: writes the theme, writes the last MaxMessages messages,
        and updates the status from the full in-memory count. The in-memory
        log is left as it is. */
    method SaveState()
      modifies store, this`memoryStatus
      ensures messages == old(messages)
      ensures store.theme == Some(ThemeValue(isDarkMode))
      ensures store.conversations == Stored(Persisted(old(messages)))
      ensures memoryStatus == StatusOf(|old(messages)|)
    {
      store.theme := Some(ThemeValue(isDarkMode));
      store.conversations := Stored(Persisted(messages));
      UpdateMemoryStatus();
    }

    /** updateMemoryStatus, without the colours. */
    method UpdateMemoryStatus()
      modifies this`memoryStatus
      ensures memoryStatus == StatusOf(|messages|)
    {
      memoryStatus := StatusOf(|messages|);
    }

    /** sendMessage. `input` is the text field's value, `now` is Date.now()
        and `time` the formatted clock time. Blank input, or input while a
        reply is pending, is ignored; otherwise the trimmed text is appended
        as a user message, the state is saved and a reply becomes pending. */
    method SendMessage(input: string, now: int, time: string)
      requires Valid()
      modifies this, store
      ensures Valid()
      ensures isDarkMode == old(isDarkMode)
      ensures Trim(input) == [] || old(isTyping) ==>
        messages == old(messages) && isTyping == old(isTyping) && pendingReply == old(pendingReply)
        && memoryStatus == old(memoryStatus) && unchanged(store)
      ensures Trim(input) != [] && !old(isTyping) ==>
        messages == old(messages) + [Message(now, User, Trim(input), time)]
        && isTyping && pendingReply == Some(Trim(input))
        && store.theme == Some(ThemeValue(isDarkMode))
        && store.conversations == Stored(Persisted(messages))
        && memoryStatus == StatusOf(|messages|)
    {
      var text := Trim(input);
      if text == [] || isTyping {
        return;
      }
      messages := messages + [Message(now, User, text, time)];
      SaveState();
      SimulateAIResponse(text);
    }

    /** The synchronous part of simulateAIResponse: raise the typing flag
        and schedule the reply to `userMessage`. Its one caller has checked
        that no reply is pending. */
    method SimulateAIResponse(userMessage: string)
      requires Valid() && !isTyping && userMessage != []
      modifies this`isTyping, this`pendingReply
      ensures Valid()
      ensures isTyping && pendingReply == Some(userMessage)
    {
      isTyping := true;
      pendingReply := Some(userMessage);
    }

    /** The body of the setTimeout callback of simulateAIResponse, run when
        the delay has passed. `u` is Math.random(), `now` is Date.now() and
        `time` the formatted clock time. The typing flag drops, the reply
        to the pending text is appended as an assistant message with id
        now + 1, and the state is saved. */
    method ReplyArrives(u: real, now: int, time: string)
      requires Valid() && isTyping
      requires 0.0 <= u < 1.0
      modifies this, store
      ensures Valid()
      ensures !isTyping && pendingReply == None
      ensures isDarkMode == old(isDarkMode)
      ensures messages == old(messages)
        + [Message(now + 1, Ai, GenerateAIResponse(old(pendingReply).value, u), time)]
      ensures store.theme == Some(ThemeValue(isDarkMode))
      ensures store.conversations == Stored(Persisted(messages))
      ensures memoryStatus == StatusOf(|messages|)
    {
      isTyping := false;
      var reply := GenerateAIResponse(pendingReply.value, u);
      messages := messages + [Message(now + 1, Ai, reply, time)];
      SaveState();
      pendingReply := None;
    }

    /** clearChat, with the answer of the confirm() dialog as `confirmed`.
        An empty log or a refusal changes nothing; otherwise the log is
        emptied and its storage slot removed, the theme untouched. */
    method ClearChat(confirmed: bool)
      requires Valid()
      modifies this`messages, this`memoryStatus, store`conversations
      ensures Valid()
      ensures old(messages) == [] || !confirmed ==>
        messages == old(messages) && memoryStatus == old(memoryStatus)
        && store.conversations == old(store.conversations)
      ensures old(messages) != [] && confirmed ==>
        messages == [] && store.conversations == Absent && memoryStatus == Empty
      ensures store.theme == old(store.theme)
    {
      if |messages| == 0 {
        return;
      }
      if confirmed {
        messages := [];
        store.conversations := Absent;
        UpdateMemoryStatus();
      }
    }

    /** toggleTheme: flips the theme and saves the whole state. */
    method ToggleTheme()
      requires Valid()
      modifies this`isDarkMode, this`memoryStatus, store
      ensures Valid()
      ensures isDarkMode == !old(isDarkMode)
      ensures messages == old(messages)
      ensures store.theme == Some(ThemeValue(isDarkMode))
      ensures store.conversations == Stored(Persisted(messages))
      ensures memoryStatus == StatusOf(|messages|)
    {
      isDarkMode := !isDarkMode;
      SaveState();
    }
  }

  /** Toggling the theme twice restores it, in memory and in storage. */
  method ToggleTwice(app: NeuraChat)
    requires app.Valid()
    modifies app, app.store
    ensures app.isDarkMode == old(app.isDarkMode)
    ensures app.store.theme == Some(ThemeValue(old(app.isDarkMode)))
  {
    app.ToggleTheme();
    app.ToggleTheme();
  }

  /** A reload of the page: a fresh application object over the same
      storage, initialised. It sees the saved theme and the saved log. */
  method Reload(store: Storage) returns (app: NeuraChat)
    modifies {}
    ensures fresh(app) && app.Valid() && app.store == store
    ensures app.isDarkMode == LoadedDarkMode(store.theme)
    ensures app.messages == LoadedLog([], store.conversations)
    ensures !app.isTyping
  {
    app := new NeuraChat(store);
    app.Init();
  }

  /** After any save, a reload restores the theme and the last MaxMessages
      messages of the log that was saved. */
  method SaveThenReload(app: NeuraChat) returns (reloaded: NeuraChat)
    modifies app`memoryStatus, app.store
    ensures reloaded.isDarkMode == app.isDarkMode
    ensures reloaded.messages == Persisted(app.messages)
  {
    app.SaveState();
    reloaded := Reload(app.store);
  }

  /** After a confirmed clear, a reload shows an empty log. */
  method ClearThenReload(app: NeuraChat) returns (reloaded: NeuraChat)
    requires app.Valid()
    modifies app, app.store
    ensures old(app.messages) != [] ==> reloaded.messages == []
  {
    app.ClearChat(true);
    reloaded := Reload(app.store);
  }
}
