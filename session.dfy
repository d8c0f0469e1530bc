/**
 * The game session row: the scene settings, the running message log with
 * its counter, and the combat flag. The JSON-text columns are held as the
 * lists they encode.
 */
module Sessions {
  import opened Text
  import opened JsonValues

  /** One entry of the message log, `{"role": role, "content": content}`. */
  datatype ChatMessage = ChatMessage(role: string, content: string)

  /** The values of a session row's columns. */
  datatype SessionData = SessionData(
    genre: string,
    tone: string,
    theme: string,
    currentLocation: string,
    currentQuest: string,
    worldState: string,
    messageHistory: seq<ChatMessage>,
    summary: string,
    messageCount: int,
    turnNumber: int,
    activeNpcs: seq<Json>,
    activeEnemies: seq<Json>,
    inCombat: bool,
    lastActions: seq<string>,
    lastActionStyles: seq<string>,
    currencyName: string)

  /** The column defaults of a freshly inserted session. */
  function DefaultSession(): (s: SessionData)
    ensures s.turnNumber == 0 && s.messageCount == 0 && s.messageHistory == []
    ensures !s.inCombat && s.currentLocation == "Unknown" && s.currencyName == "gold"
    ensures s.genre == "fantasy" && s.tone == "epic" && s.theme == "classic"
    ensures s.currentQuest == "" && s.worldState == "{}" && s.summary == ""
  {
    SessionData("fantasy", "epic", "classic", "Unknown", "", "{}", [], "", 0, 0, [], [], false, [], [], "gold")
  }

  /** `history[-n:]`: the last `n` entries for a positive `n`. */
  function Recent(history: seq<ChatMessage>, n: int): (r: seq<ChatMessage>)
    ensures |r| <= |history| && r == history[|history| - |r|..]
  {
    SliceFrom(history, -n)
  }

  /** For `n >= 1` the read returns the last `min(n, len)` entries, in order. */
  lemma RecentLast(history: seq<ChatMessage>, n: int)
    requires n >= 1
    ensures var r := Recent(history, n);
      && |r| == (if n < |history| then n else |history|)
      && forall k :: 0 <= k < |r| ==> r[k] == history[|history| - |r| + k]
  {
  }

  /** `history[-0:]` is `history[0:]`: asking for none returns all of them. */
  lemma RecentZeroIsAll(history: seq<ChatMessage>)
    ensures Recent(history, 0) == history
  {
  }

  /** A negative `n` reads as `history[|n|:]`: it drops the first `|n|` entries instead. */
  lemma RecentNegativeDrops(history: seq<ChatMessage>, n: int)
    requires n < 0
    ensures Recent(history, n) == history[(if -n < |history| then -n else |history|)..]
  {
  }

  /** The entry just appended is the most recent one. */
  lemma AppendedIsRecent(history: seq<ChatMessage>, m: ChatMessage, n: int)
    requires n >= 1
    ensures Recent(history + [m], n)[|Recent(history + [m], n)| - 1] == m
    ensures Recent(history + [m], 1) == [m]
  {
    RecentLast(history + [m], n);
    RecentLast(history + [m], 1);
  }

  class GameSession {
    var genre: string
    var tone: string
    var theme: string
    var currentLocation: string
    var currentQuest: string
    var worldState: string
    var messageHistory: seq<ChatMessage>
    var summary: string
    var messageCount: int
    var turnNumber: int
    var activeNpcs: seq<Json>
    var activeEnemies: seq<Json>
    var inCombat: bool
    var lastActions: seq<string>
    var lastActionStyles: seq<string>
    var currencyName: string

    /** The current column values. */
    function Data(): SessionData
      reads this
    {
      SessionData(genre, tone, theme, currentLocation, currentQuest, worldState, messageHistory,
                  summary, messageCount, turnNumber, activeNpcs, activeEnemies, inCombat,
                  lastActions, lastActionStyles, currencyName)
    }

    /** A new row: every column at its default. */
    constructor ()
      ensures Data() == DefaultSession()
    {
      genre, tone, theme := "fantasy", "epic", "classic";
      currentLocation, currentQuest, worldState := "Unknown", "", "{}";
      messageHistory, summary, messageCount, turnNumber := [], "", 0, 0;
      activeNpcs, activeEnemies, inCombat := [], [], false;
      lastActions, lastActionStyles, currencyName := [], [], "gold";
    }

    /** `append_message`: one entry at the end of the log, and the counter up by one. */
    method AppendMessage(role: string, content: string)
      modifies this
      ensures messageHistory == old(messageHistory) + [ChatMessage(role, content)]
      ensures messageCount == old(messageCount) + 1
      ensures messageCount - |messageHistory| == old(messageCount - |messageHistory|)
      ensures Data() == old(Data()).(messageHistory := messageHistory, messageCount := messageCount)
    {
      var history := messageHistory;
      history := history + [ChatMessage(role, content)];
      messageHistory := history;
      messageCount := messageCount + 1;
    }

    /** `get_recent_messages`, twenty entries unless told otherwise. */
    function GetRecentMessages(n: int := 20): (r: seq<ChatMessage>)
      reads this
      ensures n >= 1 ==> |r| == (if n < |messageHistory| then n else |messageHistory|)
      ensures |r| <= |messageHistory| && r == messageHistory[|messageHistory| - |r|..]
    {
      if n >= 1 then RecentLast(messageHistory, n); Recent(messageHistory, n)
      else Recent(messageHistory, n)
    }
  }
}
