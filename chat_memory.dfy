/** The conversation memory: each session's messages live in a Redis list
    under the key "chat:<session id>", newest first. The Redis keyspace is a
    map from key to list; the JSON encoding of a message is the identity on
    the values a message holds, so messages are stored as they are. */
module ChatMemory {
  import opened Values
  import opened Text

  /** A chat message: a dictionary with keys such as "role", "content" and
      "timestamp". */
  type Message = Dict

  /** `f"chat:{session_id}"`. */
  function Key(sessionId: string): (k: string)
    ensures |k| == 5 + |sessionId| && k[5..] == sessionId
  {
    "chat:" + sessionId
  }

  /** Different sessions never share a list. */
  lemma KeysDistinct(a: string, b: string)
    requires a != b
    ensures Key(a) != Key(b)
  {
    assert Key(a)[5..] == a && Key(b)[5..] == b;
  }

  /** The list under `key`; Redis reads a missing key as the empty list. */
  function Stored(lists: map<string, seq<Message>>, key: string): seq<Message>
  {
    if key in lists then lists[key] else []
  }

  /** Redis `LRANGE key start stop` on a list of length n: a negative index
      counts from the end, a start before the head is clamped to 0, a stop
      past the tail to n - 1, and both ends are inclusive. */
  function LRange(list: seq<Message>, start: int, stop: int): (r: seq<Message>)
    ensures start == 0 && 0 <= stop ==> r == list[..if stop < |list| then stop + 1 else |list|]
    ensures start == 0 && stop == -1 ==> r == list
  {
    var n := |list|;
    var s := if start < 0 then start + n else start;
    var e := if stop < 0 then stop + n else stop;
    var s := if s < 0 then 0 else s;
    if s > e || s >= n then []
    else list[s..if e >= n then n else e + 1]
  }

  /** The Redis keyspace that holds the chat lists. Redis never keeps an empty
      list: a list whose last element goes is deleted with its key. */
  class RedisLists {
    var lists: map<string, seq<Message>>

    ghost predicate Valid()
      reads this
    {
      forall k :: k in lists ==> |lists[k]| > 0
    }

    constructor ()
      ensures Valid() && lists == map[]
    {
      lists := map[];
    }

    /** `LPUSH key value`: the value becomes the head of the list, which is
        created when missing; the reply is the new length. */
    method LPush(key: string, value: Message) returns (length: nat)
      requires Valid()
      modifies this
      ensures Valid()
      ensures lists == old(lists)[key := [value] + Stored(old(lists), key)]
      ensures length == |Stored(old(lists), key)| + 1
    {
      var list := [value] + Stored(lists, key);
      lists := lists[key := list];
      length := |list|;
    }

    /** `LRANGE key start stop`. */
    method LRangeOf(key: string, start: int, stop: int) returns (r: seq<Message>)
      ensures r == LRange(Stored(lists, key), start, stop)
    {
      r := LRange(Stored(lists, key), start, stop);
    }

    /** `DEL key`: the reply counts the keys removed. */
    method Del(key: string) returns (removed: nat)
      requires Valid()
      modifies this
      ensures Valid()
      ensures removed == if key in old(lists) then 1 else 0
      ensures lists == old(lists) - {key}
    {
      removed := if key in lists then 1 else 0;
      lists := lists - {key};
    }
  }

  /** What `get_chat_history` returns: `LRANGE key 0 limit-1`, reversed so
      that the oldest message comes first. */
  function History(lists: map<string, seq<Message>>, sessionId: string, limit: int): seq<Message>
  {
    Reverse(LRange(Stored(lists, Key(sessionId)), 0, limit - 1))
  }

  /** For a positive limit the history is the `min(limit, n)` newest
      messages, oldest first; a limit of 0 reads the whole list. */
  lemma HistoryIsNewest(lists: map<string, seq<Message>>, sessionId: string, limit: int)
    ensures var stored := Stored(lists, Key(sessionId));
      var h := History(lists, sessionId, limit);
      && (limit >= 1 ==> |h| == (if limit < |stored| then limit else |stored|))
      && (limit == 0 ==> |h| == |stored|)
      && (limit >= 0 ==> forall i :: 0 <= i < |h| ==> h[i] == stored[|h| - 1 - i])
  {
  }

  /** A saved message is read back unchanged, as the newest entry of the
      history, behind the messages that were there before. */
  lemma SavedMessageIsNewest(lists: map<string, seq<Message>>, sessionId: string, message: Message, limit: int)
    requires limit >= 1
    ensures var key := Key(sessionId);
      var saved := lists[key := [message] + Stored(lists, key)];
      History(saved, sessionId, limit)
        == (if limit == 1 then [] else History(lists, sessionId, limit - 1)) + [message]
  {
    var key := Key(sessionId);
    var old_ := Stored(lists, key);
    var new_ := [message] + old_;
    assert Stored(lists[key := new_], key) == new_;
    var front := if limit == 1 then [] else LRange(old_, 0, limit - 2);
    LRangeCons(message, old_, limit);
    ReverseCons(message, front);
  }

  /** Reading `limit` entries after a push is the pushed entry followed by
      `limit - 1` entries of the list before. */
  lemma LRangeCons(message: Message, list: seq<Message>, limit: int)
    requires limit >= 1
    ensures LRange([message] + list, 0, limit - 1)
         == [message] + (if limit == 1 then [] else LRange(list, 0, limit - 2))
  {
    var m := if limit - 1 < |list| then limit - 1 else |list|;
    assert ([message] + list)[..m + 1] == [message] + list[..m];
    if limit == 1 {
      assert list[..m] == [];
    }
  }

  /** Saving to one session leaves every other session's history as it was. */
  lemma SaveIsolated(lists: map<string, seq<Message>>, sessionId: string, message: Message, other: string, limit: int)
    requires other != sessionId
    ensures var key := Key(sessionId);
      History(lists[key := [message] + Stored(lists, key)], other, limit) == History(lists, other, limit)
  {
    KeysDistinct(sessionId, other);
  }

  /** After a clear the session's history is empty, whatever the limit. */
  lemma ClearedHistoryIsEmpty(lists: map<string, seq<Message>>, sessionId: string, limit: int)
    ensures History(lists - {Key(sessionId)}, sessionId, limit) == []
  {
  }

  /** Python's name of a value's type, as an AttributeError message shows it. */
  function TypeName(v: Value): string
  {
    match v
    case VNone => "NoneType"
    case VBool(_) => "bool"
    case VInt(_) => "int"
    case VStr(_) => "str"
  }

  /** `f"{role.title()}: {content}"` for one message, with the role defaulting
      to "user" and the content to "". A role that is not a string has no
      `title` method. */
  function Line(message: Message): Result<string>
  {
    var role := GetOr(message, "role", VStr("user"));
    var content := GetOr(message, "content", VStr(""));
    if role.VStr? then Ok(Title(role.s) + ": " + Render(content))
    else Err(AttributeError("'" + TypeName(role) + "' object has no attribute 'title'"))
  }

  /** A message with neither role nor content reads as a user turn with
      nothing said. */
  lemma LineDefaults(message: Message)
    requires "role" !in message && "content" !in message
    ensures Line(message) == Ok("User: ")
  {
    assert TitleFrom("", true) == "";
    assert TitleFrom("r", true) == "r";
    assert TitleFrom("er", true) == "er";
    assert TitleFrom("ser", true) == "ser";
    assert Title("user") == "User";
    assert GetOr(message, "role", VStr("user")) == VStr("user");
    assert Render(GetOr(message, "content", VStr(""))) == "";
    assert "User" + ": " + "" == "User: ";
  }

  /** The lines of the context, one per message in order (`line` renders
      one message), or the first message's failure. */
  function Lines(history: seq<Message>, line: Message -> Result<string>): Result<seq<string>>
    decreases |history|
  {
    if |history| == 0 then Ok([])
    else
      var n := |history| - 1;
      match Lines(history[..n], line)
      case Err(e) => Err(e)
      case Ok(lines) =>
        match line(history[n])
        case Err(e) => Err(e)
        case Ok(text) => Ok(lines + [text])
  }

  /** What `get_conversation_context` returns for a history: its lines
      joined by newlines. */
  function Context(history: seq<Message>): Result<string>
  {
    match Lines(history, Line)
    case Err(e) => Err(e)
    case Ok(lines) => Ok(Join("\n", lines))
  }

  /** Rendering fails exactly when some message fails to render. */
  lemma {:induction false} LinesOk(history: seq<Message>, line: Message -> Result<string>)
    ensures Lines(history, line).Ok? <==> forall i :: 0 <= i < |history| ==> line(history[i]).Ok?
    decreases |history|
  {
    if |history| > 0 {
      var n := |history| - 1;
      var front := history[..n];
      LinesOk(front, line);
      LinesLast(history, line);
      if Lines(history, line).Ok? {
        forall i | 0 <= i < |history| ensures line(history[i]).Ok? {
          if i < n {
            assert front[i] == history[i];
          }
        }
      } else if Lines(front, line).Err? {
        var i :| 0 <= i < n && !line(front[i]).Ok?;
        assert front[i] == history[i];
      }
    }
  }

  /** When rendering succeeds there is one line per message, rendered from
      that message. */
  lemma {:induction false} LinesValues(history: seq<Message>, line: Message -> Result<string>)
    requires Lines(history, line).Ok?
    ensures |Lines(history, line).value| == |history|
    ensures forall i :: 0 <= i < |history| ==> line(history[i]).Ok? && Lines(history, line).value[i] == line(history[i]).value
    decreases |history|
  {
    if |history| > 0 {
      var n := |history| - 1;
      var front := history[..n];
      LinesLast(history, line);
      LinesValues(front, line);
      var lines := Lines(front, line).value;
      assert Lines(history, line).value == lines + [line(history[n]).value];
      assert forall i :: 0 <= i < n ==> front[i] == history[i];
    }
  }

  /** One unfolding of `Lines`. */
  lemma LinesLast(history: seq<Message>, line: Message -> Result<string>)
    requires |history| > 0
    ensures var n := |history| - 1;
      var pre, last := Lines(history[..n], line), line(history[n]);
      Lines(history, line) == if pre.Err? then Err(pre.error) else if last.Err? then Err(last.error) else Ok(pre.value + [last.value])
  {
  }

  /** A failure in a prefix of the history is the failure of the whole. */
  lemma {:induction false} LinesErrPrefix(history: seq<Message>, line: Message -> Result<string>, i: nat)
    requires i <= |history| && Lines(history[..i], line).Err?
    ensures Lines(history, line) == Lines(history[..i], line)
    decreases |history| - i
  {
    if i < |history| {
      assert history[..i + 1][..i] == history[..i];
      LinesErrPrefix(history, line, i + 1);
    } else {
      assert history[..i] == history;
    }
  }

  lemma LinesSnoc(history: seq<Message>, line: Message -> Result<string>, i: nat)
    requires i < |history|
    ensures Lines(history[..i + 1], line) ==
      match Lines(history[..i], line)
      case Err(e) => Err(e)
      case Ok(lines) =>
        match line(history[i])
        case Err(e) => Err(e)
        case Ok(text) => Ok(lines + [text])
  {
    assert history[..i + 1][..i] == history[..i];
  }

  /** The conversation context fails exactly when some message's role is not
      a string; otherwise it is one "Role: content" line per message, in
      history order, joined by newlines. */
  lemma ContextShape(history: seq<Message>)
    ensures Context(history).Ok? <==> forall i :: 0 <= i < |history| ==> GetOr(history[i], "role", VStr("user")).VStr?
    ensures Context(history).Ok? ==> exists lines: seq<string> ::
      && Context(history).value == Join("\n", lines)
      && |lines| == |history|
      && forall i :: 0 <= i < |history| ==>
           lines[i] == Title(GetOr(history[i], "role", VStr("user")).s) + ": " + Render(GetOr(history[i], "content", VStr("")))
  {
    LinesOk(history, Line);
    if Lines(history, Line).Ok? {
      LinesValues(history, Line);
    }
  }

  class ChatMemoryService {
    const redis: RedisLists
    /** Seconds a session's list lives after its last save. */
    const ttl: int

    constructor (redis: RedisLists, ttl: int := 3600)
      ensures this.redis == redis && this.ttl == ttl
    {
      this.redis := redis;
      this.ttl := ttl;
    }

    /** `save_message`: pushes the message onto the front of the session's
        list; no other list changes. */
    method SaveMessage(sessionId: string, message: Message)
      requires redis.Valid()
      modifies redis
      ensures redis.Valid()
      ensures redis.lists == old(redis.lists)[Key(sessionId) := [message] + Stored(old(redis.lists), Key(sessionId))]
    {
      var key := Key(sessionId);
      var _ := redis.LPush(key, message);
    }

    /** `get_chat_history`. */
    method GetChatHistory(sessionId: string, limit: int := 10) returns (history: seq<Message>)
      ensures history == History(redis.lists, sessionId, limit)
    {
      var key := Key(sessionId);
      var messages := redis.LRangeOf(key, 0, limit - 1);
      history := Reverse(messages);
    }

    /** `clear_chat_history`: deletes the session's list and reports whether
        there was one. */
    method ClearChatHistory(sessionId: string) returns (cleared: bool)
      requires redis.Valid()
      modifies redis
      ensures redis.Valid()
      ensures cleared == (Key(sessionId) in old(redis.lists))
      ensures redis.lists == old(redis.lists) - {Key(sessionId)}
    {
      var key := Key(sessionId);
      var result := redis.Del(key);
      cleared := result > 0;
    }

    /** `get_conversation_context`: the last `2 * max_turns` messages, one
        "Role: content" line each. */
    method GetConversationContext(sessionId: string, maxTurns: int := 5) returns (context: Result<string>)
      ensures context == Context(History(redis.lists, sessionId, maxTurns * 2))
    {
      var history := GetChatHistory(sessionId, maxTurns * 2);
      var parts: seq<string> := [];
      var i := 0;
      assert history[..0] == [];
      while i < |history|
        invariant 0 <= i <= |history|
        invariant Lines(history[..i], Line) == Ok(parts)
      {
        LinesSnoc(history, Line, i);
        var line := Line(history[i]);
        if line.Err? {
          LinesErrPrefix(history, Line, i + 1);
          return Err(line.error);
        }
        parts := parts + [line.value];
        i := i + 1;
      }
      assert history[..i] == history;
      context := Ok(Join("\n", parts));
    }
  }
}
