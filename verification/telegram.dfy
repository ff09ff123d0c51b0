/**
 * The Telegram webhook: conversation history kept in a per-chat Redis list.
 * Each turn pushes "User: <text>" and then "AI: <reply>" to the head of the
 * list `chat:<id>` and refreshes its expiry; each request reads the ten
 * entries nearest the head, reverses them into oldest-first order and decodes
 * every entry by splitting it at its first colon.
 */
module Telegram {
  import opened JsString

  /** LRANGE key 0 9: the read covers list indices 0 through 9. */
  const ReadStop: nat := 9
  /** The number of entries a read returns at most. */
  const WindowSize: nat := 10
  /** EXPIRE key 86400: one day, in seconds. */
  const HistoryTtlSeconds: int := 86400

  const UserPrefix: string := "User: "
  const AiPrefix: string := "AI: "

  /** The role a decoded entry is given in the history passed to the model. */
  datatype Role = User | Model

  /** One history entry as the model receives it: { role, parts: [{ text }] }. */
  datatype HistoryEntry = HistoryEntry(role: Role, text: string)

  /** The Redis key of a chat: `chat:${chatId}`. */
  function HistoryKey(chatId: int): string
  {
    "chat:" + IntToString(chatId)
  }

  /** Two chats never share a history list. */
  lemma HistoryKeysDistinct(a: int, b: int)
    requires a != b
    ensures HistoryKey(a) != HistoryKey(b)
  {
    if HistoryKey(a) == HistoryKey(b) {
      assert HistoryKey(a)[5..] == IntToString(a);
      assert HistoryKey(b)[5..] == IntToString(b);
      IntToStringInjective(a, b);
    }
  }

  function EncodeUser(text: string): string { UserPrefix + text }

  function EncodeAi(reply: string): string { AiPrefix + reply }

  /**
   * `const [role, ...content] = item.split(':')`: the role is the text before the
   * first colon, the content the rest re-joined with ':' and trimmed; only a role of
   * exactly "User" is the user, every other role is the model.
   */
  function DecodeEntry(item: string): (e: HistoryEntry)
    ensures e.role == User <==> Split(item, ':')[0] == "User"
  {
    var parts := Split(item, ':');
    HistoryEntry(if parts[0] == "User" then User else Model, Trim(Join(parts[1..], ':')))
  }

  /** Decoding a stored user line gives the user role and the trimmed text, colons and all. */
  lemma DecodeUserRoundTrip(text: string)
    ensures DecodeEntry(EncodeUser(text)) == HistoryEntry(User, Trim(text))
  {
    assert EncodeUser(text) == "User" + [':'] + (" " + text);
    SplitFirstRejoin("User", ':', " " + text);
    TrimSkipsLeadingWhitespace(" ", text);
  }

  /** Decoding a stored AI line gives the model role and the trimmed reply, colons and all. */
  lemma DecodeAiRoundTrip(reply: string)
    ensures DecodeEntry(EncodeAi(reply)) == HistoryEntry(Model, Trim(reply))
  {
    assert EncodeAi(reply) == "AI" + [':'] + (" " + reply);
    SplitFirstRejoin("AI", ':', " " + reply);
    TrimSkipsLeadingWhitespace(" ", reply);
  }

  /** Any role text other than exactly "User" before the first colon decodes to the model. */
  lemma DecodeOtherRoleIsModel(role: string, rest: string)
    requires ':' !in role && role != "User"
    ensures DecodeEntry(role + [':'] + rest) == HistoryEntry(Model, Trim(rest))
  {
    SplitFirstRejoin(role, ':', rest);
  }

  /** Array.prototype.reverse. */
  function Reverse<T>(s: seq<T>): (r: seq<T>)
    ensures |r| == |s|
    ensures forall i :: 0 <= i < |s| ==> r[i] == s[|s| - 1 - i]
  {
    if s == [] then [] else Reverse(s[1..]) + [s[0]]
  }

  lemma ReverseReverse<T>(s: seq<T>)
    ensures Reverse(Reverse(s)) == s
  {
  }

  /** Reversing a concatenation reverses the order of the pieces. */
  lemma ReverseAppend<T>(a: seq<T>, b: seq<T>)
    ensures Reverse(a + b) == Reverse(b) + Reverse(a)
  {
  }

  /** LRANGE key start stop, for non-negative indices; stop is inclusive. */
  function LRange(list: seq<string>, start: nat, stop: nat): (r: seq<string>)
    ensures |r| <= |list|
    ensures start <= stop ==> |r| == Min(stop + 1, |list|) - Min(start, |list|)
    ensures forall i :: 0 <= i < |r| ==> start + i < |list| && r[i] == list[start + i]
  {
    if start >= |list| || start > stop then [] else list[start..Min(stop + 1, |list|)]
  }

  function Min(a: int, b: int): int { if a <= b then a else b }

  /** `rawHistory.reverse().map(decode)`. */
  function DecodeHistory(raw: seq<string>): (h: seq<HistoryEntry>)
    ensures |h| == |raw|
    ensures forall i :: 0 <= i < |raw| ==> h[i] == DecodeEntry(raw[|raw| - 1 - i])
  {
    var rev := Reverse(raw);
    seq(|rev|, i requires 0 <= i < |rev| => DecodeEntry(rev[i]))
  }

  /** The history a request reads from the list stored under its key. */
  function ReadHistory(list: seq<string>): (h: seq<HistoryEntry>)
    ensures |h| <= WindowSize
  {
    DecodeHistory(LRange(list, 0, ReadStop))
  }

  /** Two LPUSHes, first the user line then the AI line, put the AI line at the head. */
  function PushTurn(list: seq<string>, text: string, reply: string): (l: seq<string>)
    ensures |l| == |list| + 2 && l[0] == EncodeAi(reply) && l[1] == EncodeUser(text) && l[2..] == list
  {
    [EncodeAi(reply)] + ([EncodeUser(text)] + list)
  }

  /** A list built by LPUSH only is the chronological log reversed. */
  lemma PushTurnExtendsLog(log: seq<string>, text: string, reply: string)
    ensures PushTurn(Reverse(log), text, reply) == Reverse(log + [EncodeUser(text), EncodeAi(reply)])
  {
    ReverseAppend(log, [EncodeUser(text), EncodeAi(reply)]);
  }

  /**
   * Reading a list that holds the chronological log reversed gives back the at most
   * ten latest entries of the log, oldest first.
   */
  lemma {:induction false} ReadIsChronological(log: seq<string>)
    ensures Reverse(LRange(Reverse(log), 0, ReadStop)) == log[|log| - Min(|log|, WindowSize)..]
  {
    var k := Min(|log|, WindowSize);
    var window := LRange(Reverse(log), 0, ReadStop);
    assert |window| == k;
    var got := Reverse(window);
    var want := log[|log| - k..];
    assert |got| == |want|;
    forall i | 0 <= i < k ensures got[i] == want[i] {
      calc {
        got[i];
        window[k - 1 - i];
        Reverse(log)[k - 1 - i];
        log[|log| - 1 - (k - 1 - i)];
        want[i];
      }
    }
  }

  /** The decoded history of a list built by LPUSH only: the latest ten entries of the log, in order. */
  lemma ReadHistoryOfLog(log: seq<string>)
    ensures var recent := log[|log| - Min(|log|, WindowSize)..];
            ReadHistory(Reverse(log)) == seq(|recent|, i requires 0 <= i < |recent| => DecodeEntry(recent[i]))
  {
    ReadIsChronological(log);
    var window := LRange(Reverse(log), 0, ReadStop);
    ReverseReverse(window);
  }

  /**
   * After a turn the next read ends with that turn: the user's message and then the
   * reply, each trimmed, whatever the log held before.
   */
  lemma {:induction false} NextReadEndsWithTurn(log: seq<string>, text: string, reply: string)
    ensures var h := ReadHistory(PushTurn(Reverse(log), text, reply));
            |h| >= 2
            && h[|h| - 2] == HistoryEntry(User, Trim(text))
            && h[|h| - 1] == HistoryEntry(Model, Trim(reply))
  {
    var log' := log + [EncodeUser(text), EncodeAi(reply)];
    PushTurnExtendsLog(log, text, reply);
    ReadHistoryOfLog(log');
    DecodeUserRoundTrip(text);
    DecodeAiRoundTrip(reply);
  }

  /** The chat-side part of an update: its chat id and its text, if any. */
  datatype ChatMessage = ChatMessage(chatId: int, text: Option<string>)

  /** What the generation step yields for a history and a message. */
  datatype Generation = Generated(reply: string) | GenerationFailed

  /** The webhook's JSON responses. */
  datatype Response = Ok | Failure(status: int, error: string)

  /**
   * The Redis store: one list and at most one time-to-live per key. Expiry itself
   * (removal once the TTL has run out) is not modelled; the TTL last set is kept.
   */
  class Store {
    var lists: map<string, seq<string>>
    var ttls: map<string, int>

    constructor ()
      ensures lists == map[] && ttls == map[]
    {
      lists := map[];
      ttls := map[];
    }

    /** The list under a key; a missing key reads as the empty list. */
    function ListAt(key: string): seq<string>
      reads this
    {
      if key in lists then lists[key] else []
    }

    method LPush(key: string, value: string)
      modifies this
      ensures lists == old(lists)[key := [value] + old(ListAt(key))]
      ensures ttls == old(ttls)
    {
      lists := lists[key := [value] + ListAt(key)];
    }

    /** EXPIRE sets the TTL only of a key that exists. */
    method Expire(key: string, seconds: int)
      modifies this
      ensures lists == old(lists)
      ensures ttls == if key in lists then old(ttls)[key := seconds] else old(ttls)
    {
      if key in lists {
        ttls := ttls[key := seconds];
      }
    }
  }

  /**
   * POST /api/telegram. `update` is None when the body is not JSON; `generate` is the
   * model's answer to a history and a message; `delivered` says whether sending the
   * reply through the bot succeeded. Returns the response and the history the model
   * was given, if it was called.
   */
  method HandleUpdate(store: Store, botToken: Option<string>, update: Option<Option<ChatMessage>>,
                      generate: (seq<HistoryEntry>, string) -> Generation, delivered: bool)
      returns (response: Response, history: Option<seq<HistoryEntry>>)
    modifies store
    ensures !Truthy(botToken) ==>
      response == Failure(500, "TELEGRAM_BOT_TOKEN not set") && history == None && unchanged(store)
    ensures Truthy(botToken) && update == None ==>
      response == Failure(500, "Failed") && history == None && unchanged(store)
    ensures Truthy(botToken) && update.Some? && (update.value == None || !Truthy(update.value.value.text)) ==>
      response == Ok && history == None && unchanged(store)
    ensures Truthy(botToken) && update.Some? && update.value.Some? && Truthy(update.value.value.text) ==>
      var msg := update.value.value;
      var key := HistoryKey(msg.chatId);
      var h := ReadHistory(old(store.ListAt(key)));
      var g := generate(h, msg.text.value);
      && history == Some(h)
      && (if g.Generated? && delivered then
            && response == Ok
            && store.lists == old(store.lists)[key := PushTurn(old(store.ListAt(key)), msg.text.value, g.reply)]
            && store.ttls == old(store.ttls)[key := HistoryTtlSeconds]
          else
            response == Failure(500, "Failed") && unchanged(store))
  {
    history := None;
    if !Truthy(botToken) {
      return Failure(500, "TELEGRAM_BOT_TOKEN not set"), history;
    }
    if update.None? {
      return Failure(500, "Failed"), history;
    }
    if update.value.None? {
      return Ok, history;
    }
    var msg := update.value.value;
    if Truthy(msg.text) {
      var text := msg.text.value;
      var key := HistoryKey(msg.chatId);
      var raw := LRange(store.ListAt(key), 0, ReadStop);
      var h := DecodeHistory(raw);
      history := Some(h);
      var g := generate(h, text);
      if !g.Generated? || !delivered {
        return Failure(500, "Failed"), history;
      }
      store.LPush(key, EncodeUser(text));
      store.LPush(key, EncodeAi(g.reply));
      store.Expire(key, HistoryTtlSeconds);
    }
    response := Ok;
  }
}
