/**
 * The chat routes of server/routes/assistant.js: a per-user history, updated in place, that
 * holds alternating user messages and assistant replies and keeps only its last 10 entries.
 */
module AssistantRoutes {
  import opened Wrappers
  import opened Replies
  import opened FilterValues
  import opened AiAssistant

  const HistoryLimit := 10

  /** The last `n` entries of `s` (all of them when there are fewer). */
  function LastN(s: seq<string>, n: nat): (r: seq<string>)
    ensures |r| == if |s| <= n then |s| else n
    ensures forall k :: 0 <= k < |r| ==> r[k] == s[|s| - |r| + k]
  {
    if |s| <= n then s else s[|s| - n..]
  }

  /** One exchange: the user's message and the reply to it. */
  datatype Turn = Turn(message: string, reply: string)

  /** The history the exchanges are stored as: message, reply, message, reply, ... */
  function Flatten(turns: seq<Turn>): (h: seq<string>)
    ensures |h| == 2 * |turns|
    decreases |turns|
  {
    if turns == [] then [] else [turns[0].message, turns[0].reply] + Flatten(turns[1..])
  }

  lemma {:induction false} FlattenAppend(turns: seq<Turn>, t: Turn)
    ensures Flatten(turns + [t]) == Flatten(turns) + [t.message, t.reply]
    decreases |turns|
  {
    if turns != [] {
      assert (turns + [t])[1..] == turns[1..] + [t];
      FlattenAppend(turns[1..], t);
    }
  }

  /** Dropping the first exchange drops the first two entries. */
  lemma FlattenTail(turns: seq<Turn>)
    requires |turns| > 0
    ensures Flatten(turns)[2..] == Flatten(turns[1..])
  {
    var head := [turns[0].message, turns[0].reply];
    assert Flatten(turns) == head + Flatten(turns[1..]);
    assert (head + Flatten(turns[1..]))[2..] == Flatten(turns[1..]);
  }

  /** Flattened histories carry the user's messages at even indices and replies at odd ones. */
  lemma {:induction false} FlattenIndices(turns: seq<Turn>, i: nat)
    requires i < |turns|
    ensures Flatten(turns)[2 * i] == turns[i].message && Flatten(turns)[2 * i + 1] == turns[i].reply
    decreases i
  {
    if i > 0 {
      FlattenIndices(turns[1..], i - 1);
    }
  }

  /** The exchanges kept after adding `t`: the last five. */
  function KeptTurns(turns: seq<Turn>, t: Turn): (r: seq<Turn>)
    ensures |r| <= 5 && |r| >= 1 && r[|r| - 1] == t
  {
    var all := turns + [t];
    if |all| <= 5 then all else all[|all| - 5..]
  }

  /**
   * Trimming a flattened history of at most five exchanges, after one more exchange, to its
   * last 10 entries keeps whole exchanges: the last five.
   */
  lemma TrimKeepsTurns(turns: seq<Turn>, t: Turn)
    requires |turns| <= 5
    ensures LastN(Flatten(turns) + [t.message, t.reply], HistoryLimit) == Flatten(KeptTurns(turns, t))
  {
    var all := turns + [t];
    FlattenAppend(turns, t);
    var h := Flatten(all);
    if |all| > 5 {
      assert KeptTurns(turns, t) == all[1..];
      FlattenTail(all);
      assert |h| - HistoryLimit == 2;
    } else {
      assert KeptTurns(turns, t) == all;
      assert |h| <= HistoryLimit;
    }
  }

  class Conversations {
    var histories: map<string, seq<string>>
    /** The exchanges each history is the flattening of. */
    ghost var turns: map<string, seq<Turn>>

    ghost predicate Valid()
      reads this
    {
      forall u :: u in histories ==> u in turns && |turns[u]| <= 5 && histories[u] == Flatten(turns[u])
    }

    constructor ()
      ensures histories == map[] && Valid()
    {
      histories := map[];
      turns := map[];
    }

    /** The history a user's next chat starts from. */
    function HistoryOf(userId: string): seq<string>
      reads this
    {
      if userId in histories then histories[userId] else []
    }

    /**
     * POST /chat. The assistant is consulted with the history as it was before this message;
     * its language-model answers and failure are the parameters after `message`.
     */
    method Chat(userId: string, message: string, key: Option<string>, llmIntent: Option<string>,
                llmFilters: Option<Filters>, failed: bool) returns (r: Reply<AssistantReply>)
      modifies this
      ensures message == "" ==> r == Fail(BadRequest, "Message is required") && histories == old(histories)
      ensures message != "" ==>
        var reply := ReplyFor(message, key, llmIntent, llmFilters, failed);
        r == Ok(reply) &&
        histories == old(histories)[userId := LastN(old(HistoryOf(userId)) + [message, reply.response], HistoryLimit)]
      ensures old(Valid()) ==> Valid()
    {
      if message == "" {
        return Fail(BadRequest, "Message is required");
      }
      Open(userId);
      var history := histories[userId];
      var result := ProcessAssistantMessage(message, history, key, llmIntent, llmFilters, failed);
      Record(userId, message, result.response);
      r := Ok(result);
    }

    /** Get or create: a user without a history gets an empty one. */
    method Open(userId: string)
      modifies this
      ensures histories == old(histories)[userId := old(HistoryOf(userId))]
      ensures old(Valid()) ==> Valid()
    {
      if userId !in histories {
        histories := histories[userId := []];
        turns := turns[userId := []];
      }
    }

    /** The two pushes and the trim to the last 10 entries, on an existing history. */
    method Record(userId: string, message: string, response: string)
      requires userId in histories
      modifies this
      ensures histories == old(histories)[userId := LastN(old(histories)[userId] + [message, response], HistoryLimit)]
      ensures old(Valid()) ==> Valid()
    {
      var history := histories[userId];
      ghost var before := history;
      ghost var previous := if userId in turns then turns[userId] else [];
      history := history + [message];
      history := history + [response];
      if |history| > HistoryLimit {
        history := history[|history| - HistoryLimit..];
      }
      assert history == LastN(before + [message, response], HistoryLimit);
      histories := histories[userId := history];
      turns := turns[userId := KeptTurns(previous, Turn(message, response))];
      if old(Valid()) {
        TrimKeepsTurns(previous, Turn(message, response));
      }
    }

    /** POST /clear: forgets this user's history only. */
    method Clear(userId: string)
      modifies this
      ensures histories == old(histories) - {userId}
      ensures HistoryOf(userId) == []
      ensures old(Valid()) ==> Valid()
    {
      histories := histories - {userId};
    }
  }

  /** The history never exceeds 10 entries and ends with the message and its reply. */
  lemma ChatHistoryShape(old_: seq<string>, message: string, response: string)
    ensures var h := LastN(old_ + [message, response], HistoryLimit);
      |h| <= HistoryLimit && |h| >= 2 && h[|h| - 2] == message && h[|h| - 1] == response
  {
  }

  /** The history after a chat has even length, with the user's messages at even indices. */
  lemma ChatHistoryParity(turns: seq<Turn>, message: string, response: string, i: nat)
    requires |turns| <= 5
    ensures var h := LastN(Flatten(turns) + [message, response], HistoryLimit);
      var kept := KeptTurns(turns, Turn(message, response));
      |h| % 2 == 0 && (i < |kept| ==> h[2 * i] == kept[i].message && h[2 * i + 1] == kept[i].reply)
  {
    TrimKeepsTurns(turns, Turn(message, response));
    var kept := KeptTurns(turns, Turn(message, response));
    if i < |kept| {
      FlattenIndices(kept, i);
    }
  }
}
