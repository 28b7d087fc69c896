/** The script's session state (`st.session_state`) and the two things that
    change it: the reset when the observed map id changes (app.py:161-170)
    and a chat turn (app.py:185-197 and app.py:211-223). */
module Session {
  import opened Wrappers
  import opened Text
  import opened Transcript
  import opened Seed
  import Scan

  /** What the completion call yields: the reply text with the call's
      `total_tokens`, or a failure. An exception inside the call, a missing
      response and the string returned instead of a pair all reach the
      handler's `except` and are one failure here. */
  datatype Completion = Replied(content: string, totalTokens: nat) | Failed

  /** One turn of the session as it ended. */
  datatype TurnRecord =
    | Answered(query: string, reply: string, tokens: nat)
    | Unanswered(query: string)

  /** The transcript entries a turn leaves behind. */
  function TurnMessages(t: TurnRecord): seq<Message> {
    match t
    case Answered(q, a, _) => [Message(User, q), Message(Assistant, a)]
    case Unanswered(q) => [Message(User, q)]
  }

  function LogMessages(log: seq<TurnRecord>): seq<Message> {
    if log == [] then [] else LogMessages(log[..|log| - 1]) + TurnMessages(log[|log| - 1])
  }

  /** The queries of the answered turns, oldest first (the `past` buffer). */
  function Queries(log: seq<TurnRecord>): seq<string> {
    if log == [] then []
    else
      var t := log[|log| - 1];
      Queries(log[..|log| - 1]) + (if t.Answered? then [t.query] else [])
  }

  /** The replies of the answered turns, oldest first (the `generated` buffer). */
  function Replies(log: seq<TurnRecord>): seq<string> {
    if log == [] then []
    else
      var t := log[|log| - 1];
      Replies(log[..|log| - 1]) + (if t.Answered? then [t.reply] else [])
  }

  /** The sum of the token usages of the answered turns. */
  function TokenTotal(log: seq<TurnRecord>): nat {
    if log == [] then 0
    else
      var t := log[|log| - 1];
      TokenTotal(log[..|log| - 1]) + (if t.Answered? then t.tokens else 0)
  }

  /** The usage of the most recent answered turn, 0 if there is none. */
  function LastTokens(log: seq<TurnRecord>): nat {
    if log == [] then 0
    else
      var t := log[|log| - 1];
      if t.Answered? then t.tokens else LastTokens(log[..|log| - 1])
  }

  /** The session invariant on plain values: the transcript is the seed
      followed by the entries of each turn, and the display buffers and the
      counters are determined by the turns. */
  ghost predicate Consistent(seed: seq<Message>, log: seq<TurnRecord>, messages: seq<Message>,
                             past: seq<string>, generated: seq<string>, total: nat, last: nat)
  {
    (seed == [] || IsSeedTriple(seed))
    && messages == seed + LogMessages(log)
    && past == Queries(log)
    && generated == Replies(log)
    && total == TokenTotal(log)
    && last == LastTokens(log)
  }

  /** A turn keeps the invariant: its entries go to the end of the
      transcript and, when answered, its query, reply and usage go to the
      buffers and counters. */
  lemma TurnKeepsConsistent(seed: seq<Message>, log: seq<TurnRecord>, messages: seq<Message>,
                            past: seq<string>, generated: seq<string>, total: nat, last: nat,
                            t: TurnRecord)
    requires Consistent(seed, log, messages, past, generated, total, last)
    ensures t.Answered? ==>
              Consistent(seed, log + [t], messages + TurnMessages(t), past + [t.query],
                         generated + [t.reply], total + t.tokens, t.tokens)
    ensures t.Unanswered? ==>
              Consistent(seed, log + [t], messages + TurnMessages(t), past, generated, total, last)
  {
    LogStep(log, t);
    assert messages + TurnMessages(t) == seed + (LogMessages(log) + TurnMessages(t));
  }

  /** A session without turns is consistent with any seed the script can
      install: none, or the seeded triple. */
  lemma FreshConsistent(seed: seq<Message>)
    requires seed == [] || IsSeedTriple(seed)
    ensures Consistent(seed, [], seed, [], [], 0, 0)
  {
    assert seed + LogMessages([]) == seed;
  }

  /** The record a turn leaves for `query` when the call yields `completion`. */
  function TurnOf(query: string, completion: Completion): TurnRecord {
    match completion
    case Replied(content, usage) => Answered(query, content, usage)
    case Failed => Unanswered(query)
  }

  /** The query the script switches to when a new map is loaded. */
  const ResetQuery: string := "Suggest 3 questions you can answer about this Wardley Map?"

  class ChatSession {
    /** The seed texts of `get_initial_message`. */
    const template: SeedTemplate

    var tokensUsed: nat
    var totalTokensUsed: nat
    var generated: seq<string>
    var past: seq<string>
    var messages: seq<Message>
    /** `None` until a fetch succeeds; the script starts it as `[]`. */
    var mapText: Option<string>
    var codeHasRun: bool
    var currentMapId: Option<string>

    /** The opening entries of the current session's transcript. */
    ghost var seed: seq<Message>
    /** The turns of the current session, oldest first. */
    ghost var log: seq<TurnRecord>

    /** The transcript is the seed followed by the entries of each turn; the
        two display buffers and the counters are determined by the turns. */
    ghost predicate Valid()
      reads this
    {
      Consistent(seed, log, messages, past, generated, totalTokensUsed, tokensUsed)
    }

    /** The defaults the script installs on the first run (app.py:128-147). */
    constructor ()
      ensures Valid()
      ensures tokensUsed == 0 && totalTokensUsed == 0
      ensures generated == [] && past == [] && messages == []
      ensures mapText == None && !codeHasRun && currentMapId == None
      ensures seed == [] && log == []
      ensures template == WardleyTemplate
    {
      template := WardleyTemplate;
      tokensUsed := 0;
      totalTokensUsed := 0;
      generated := [];
      past := [];
      messages := [];
      mapText := None;
      codeHasRun := false;
      currentMapId := None;
      seed := [];
      log := [];
      FreshConsistent([]);
    }

    /** `update_chat`: append one entry to the transcript, in place. */
    method UpdateChat(role: string, content: string)
      modifies this`messages
      ensures messages == old(messages) + [Message(role, content)]
    {
      messages := messages + [Message(role, content)];
    }

    /** The reset block. When `mapId` is not the current map id, the session
        is reset for it and the query becomes `ResetQuery`; otherwise nothing
        changes and the query is kept. */
    method SyncMapId(mapId: string, fetch: FetchOutcome, query: string) returns (q: string, warning: Option<FetchError>)
      requires Valid()
      modifies this
      ensures Valid()
      ensures old(currentMapId) == Some(mapId) ==> q == query && warning == None && unchanged(this)
      ensures old(currentMapId) != Some(mapId) ==>
                q == ResetQuery
                && warning == FetchWarning(fetch)
                && currentMapId == Some(mapId)
                && tokensUsed == 0 && totalTokensUsed == 0
                && past == [] && generated == [] && !codeHasRun
                && messages == GetInitialMessage(fetch, template)
                && seed == messages && log == []
                && mapText == (if FetchMapText(fetch).Ok? then Some(FetchMapText(fetch).value)
                               else old(mapText))
    {
      if currentMapId == Some(mapId) {
        return query, None;
      }
      warning := ResetSession(mapId, fetch);
      q := ResetQuery;
    }

    /** The body of the reset block: the old transcript, both counters and
        both display buffers are dropped, the id becomes current (before the
        fetch, so also when the fetch then fails), and the transcript is
        re-seeded from `fetch`. */
    method ResetSession(mapId: string, fetch: FetchOutcome) returns (warning: Option<FetchError>)
      modifies this
      ensures Valid()
      ensures warning == FetchWarning(fetch)
      ensures currentMapId == Some(mapId)
      ensures tokensUsed == 0 && totalTokensUsed == 0
      ensures past == [] && generated == [] && !codeHasRun
      ensures messages == GetInitialMessage(fetch, template)
      ensures seed == messages && log == []
      ensures mapText == (if FetchMapText(fetch).Ok? then Some(FetchMapText(fetch).value)
                          else old(mapText))
    {
      messages := [];
      totalTokensUsed := 0;
      tokensUsed := 0;
      past := [];
      generated := [];
      codeHasRun := false;
      currentMapId := Some(mapId);
      var seeded;
      seeded, warning := LoadInitialMessage(fetch);
      FreshConsistent(seeded);
      messages := seeded;
      seed := seeded;
      log := [];
    }

    /** `get_initial_message`: the seeded transcript for `fetch`; a successful
        fetch also stores the map text in the session, a failed one yields
        the warning the script shows. */
    method LoadInitialMessage(fetch: FetchOutcome) returns (ms: seq<Message>, warning: Option<FetchError>)
      modifies this`mapText
      ensures ms == GetInitialMessage(fetch, template)
      ensures warning == FetchWarning(fetch)
      ensures warning.None? <==> ms != []
      ensures mapText == (if FetchMapText(fetch).Ok? then Some(FetchMapText(fetch).value)
                          else old(mapText))
    {
      match FetchMapText(fetch) {
        case Ok(t) =>
          mapText := Some(t);
          warning := None;
        case Err(e) =>
          warning := Some(e);
      }
      ms := GetInitialMessage(fetch, template);
    }

    /** One chat turn: the query is appended as a user entry, the whole
        transcript is translated and sent; on a reply the assistant entry is
        appended, the counters take the call's usage, and `generated` and
        `past` grow by the reply and the query. On a failure only the user
        entry remains. */
    method ExecuteTurn(query: string, completion: Completion) returns (request: seq<ChatMessage>)
      requires Valid()
      modifies this`messages, this`tokensUsed, this`totalTokensUsed, this`generated, this`past, this`log
      ensures Valid()
      ensures request == Translate(old(messages) + [Message(User, query)])
      ensures messages == old(messages) + TurnMessages(TurnOf(query, completion))
      ensures log == old(log) + [TurnOf(query, completion)]
      ensures past == old(past) + (if completion.Replied? then [query] else [])
      ensures generated == old(generated) + (if completion.Replied? then [completion.content] else [])
      ensures totalTokensUsed == old(totalTokensUsed) + (if completion.Replied? then completion.totalTokens else 0)
      ensures tokensUsed == if completion.Replied? then completion.totalTokens else old(tokensUsed)
    {
      ghost var before := messages;
      ghost var entries := TurnMessages(TurnOf(query, completion));
      UpdateChat(User, query);
      assert messages[..|messages| - 1] == before;
      assert entries == [Message(User, query)] + entries[1..];
      request := ToChatMessages(messages);
      RecordOutcome(query, completion);
    }

    /** What the call's outcome does to the session once the user entry is
        in place: a reply goes through `RecordReply`, a failure leaves the
        user entry unanswered. */
    method RecordOutcome(query: string, completion: Completion)
      requires Pending(query)
      modifies this`messages, this`tokensUsed, this`totalTokensUsed, this`generated, this`past, this`log
      ensures Valid()
      ensures messages == old(messages) + TurnMessages(TurnOf(query, completion))[1..]
      ensures log == old(log) + [TurnOf(query, completion)]
      ensures past == old(past) + (if completion.Replied? then [query] else [])
      ensures generated == old(generated) + (if completion.Replied? then [completion.content] else [])
      ensures totalTokensUsed == old(totalTokensUsed) + (if completion.Replied? then completion.totalTokens else 0)
      ensures tokensUsed == if completion.Replied? then completion.totalTokens else old(tokensUsed)
    {
      match completion {
        case Replied(content, usage) =>
          RecordReply(query, content, usage);
        case Failed =>
          RecordFailure(query);
          assert messages == old(messages) + [];
      }
    }

    /** The user entry of the turn under way is the last entry, and the
        rest of the state is as `Valid` describes it. */
    ghost predicate Pending(query: string)
      reads this
    {
      |messages| > 0 && messages[|messages| - 1] == Message(User, query)
      && Consistent(seed, log, messages[..|messages| - 1], past, generated, totalTokensUsed, tokensUsed)
    }

    /** The failure path of a turn: the user entry stays, unanswered, and
        nothing else changes. */
    ghost method RecordFailure(query: string)
      requires Pending(query)
      modifies this`log
      ensures Valid()
      ensures log == old(log) + [Unanswered(query)]
    {
      TurnKeepsConsistent(seed, log, messages[..|messages| - 1], past, generated,
                          totalTokensUsed, tokensUsed, Unanswered(query));
      assert messages == messages[..|messages| - 1] + TurnMessages(Unanswered(query));
      log := log + [Unanswered(query)];
    }

    /** The success path of a turn: the call's usage goes to both counters,
        the reply is appended as an assistant entry, and the reply and the
        query go to `generated` and `past`. */
    method RecordReply(query: string, content: string, usage: nat)
      requires Pending(query)
      modifies this`messages, this`tokensUsed, this`totalTokensUsed, this`generated, this`past, this`log
      ensures Valid()
      ensures messages == old(messages) + [Message(Assistant, content)]
      ensures tokensUsed == usage && totalTokensUsed == old(totalTokensUsed) + usage
      ensures generated == old(generated) + [content] && past == old(past) + [query]
      ensures log == old(log) + [Answered(query, content, usage)]
    {
      ghost var before := messages[..|messages| - 1];
      ghost var t := Answered(query, content, usage);
      TurnKeepsConsistent(seed, log, before, past, generated, totalTokensUsed, tokensUsed, t);
      tokensUsed := usage;
      totalTokensUsed := totalTokensUsed + tokensUsed;
      UpdateChat(Assistant, content);
      generated := generated + [content];
      past := past + [query];
      assert messages == before + TurnMessages(t);
      log := log + [t];
    }

    /** The "Ask Question" button: a turn runs only for a non-empty query. */
    method AskQuestion(query: string, completion: Completion) returns (request: Option<seq<ChatMessage>>)
      requires Valid()
      modifies this`messages, this`tokensUsed, this`totalTokensUsed, this`generated, this`past, this`log
      ensures Valid()
      ensures query == "" ==> request == None && unchanged(this)
      ensures query != "" ==>
                request == Some(Translate(old(messages) + [Message(User, query)]))
                && messages == old(messages) + TurnMessages(TurnOf(query, completion))
                && log == old(log) + [TurnOf(query, completion)]
                && past == old(past) + (if completion.Replied? then [query] else [])
                && generated == old(generated) + (if completion.Replied? then [completion.content] else [])
                && totalTokensUsed == old(totalTokensUsed) + (if completion.Replied? then completion.totalTokens else 0)
                && tokensUsed == (if completion.Replied? then completion.totalTokens else old(tokensUsed))
                && |messages| == |old(messages)| + (if completion.Replied? then 2 else 1)
                && |past| == |generated|
    {
      if query == "" {
        return None;
      }
      var sent := ExecuteTurn(query, completion);
      request := Some(sent);
      BuffersAligned(log);
    }

    /** An "Ask follow up question" button: the offered line of an earlier
        reply becomes the query of a turn, with the same effects as a typed
        question. */
    method AskFollowUp(sentence: string, completion: Completion) returns (request: seq<ChatMessage>)
      requires Valid()
      requires exists g :: g in generated && sentence in Scan.Prompts(SplitOn(Strip(g), "\n"))
      modifies this`messages, this`tokensUsed, this`totalTokensUsed, this`generated, this`past, this`log
      ensures Valid()
      ensures request == Translate(old(messages) + [Message(User, sentence)])
      ensures messages == old(messages) + TurnMessages(TurnOf(sentence, completion))
      ensures log == old(log) + [TurnOf(sentence, completion)]
      ensures past == old(past) + (if completion.Replied? then [sentence] else [])
      ensures generated == old(generated) + (if completion.Replied? then [completion.content] else [])
      ensures totalTokensUsed == old(totalTokensUsed) + (if completion.Replied? then completion.totalTokens else 0)
      ensures tokensUsed == if completion.Replied? then completion.totalTokens else old(tokensUsed)
      ensures |messages| == |old(messages)| + (if completion.Replied? then 2 else 1)
      ensures |past| == |generated|
    {
      request := ExecuteTurn(sentence, completion);
      BuffersAligned(log);
    }
  }

  /** Adding one turn at the end extends each view of the log by that turn. */
  lemma LogStep(log: seq<TurnRecord>, t: TurnRecord)
    ensures LogMessages(log + [t]) == LogMessages(log) + TurnMessages(t)
    ensures Queries(log + [t]) == Queries(log) + (if t.Answered? then [t.query] else [])
    ensures Replies(log + [t]) == Replies(log) + (if t.Answered? then [t.reply] else [])
    ensures TokenTotal(log + [t]) == TokenTotal(log) + (if t.Answered? then t.tokens else 0)
    ensures LastTokens(log + [t]) == if t.Answered? then t.tokens else LastTokens(log)
  {
    assert (log + [t])[..|log|] == log;
  }

  /** `past` and `generated` stay the same length, so index `i` of each names
      the query and the reply of the same turn. */
  lemma {:induction false} BuffersAligned(log: seq<TurnRecord>)
    ensures |Queries(log)| == |Replies(log)|
  {
    if log != [] {
      BuffersAligned(log[..|log| - 1]);
    }
  }

  /** Query `i` and reply `i` stand next to each other in the transcript, the
      user entry first. */
  lemma {:induction false} PairInTranscript(log: seq<TurnRecord>, i: nat)
    requires i < |Replies(log)|
    ensures |Queries(log)| == |Replies(log)|
    ensures exists k :: 0 <= k < |LogMessages(log)| - 1
                        && LogMessages(log)[k] == Message(User, Queries(log)[i])
                        && LogMessages(log)[k + 1] == Message(Assistant, Replies(log)[i])
  {
    BuffersAligned(log);
    var n := |log| - 1;
    var init := log[..n];
    var t := log[n];
    BuffersAligned(init);
    if i < |Replies(init)| {
      PairInTranscript(init, i);
      var k :| 0 <= k < |LogMessages(init)| - 1
               && LogMessages(init)[k] == Message(User, Queries(init)[i])
               && LogMessages(init)[k + 1] == Message(Assistant, Replies(init)[i]);
      assert LogMessages(log)[k] == LogMessages(init)[k];
      assert LogMessages(log)[k + 1] == LogMessages(init)[k + 1];
    } else {
      var k := |LogMessages(init)|;
      assert LogMessages(log)[k] == Message(User, Queries(log)[i]);
      assert LogMessages(log)[k + 1] == Message(Assistant, Replies(log)[i]);
    }
  }

  /** The entries the turns leave are user and assistant entries only, and
      every assistant entry directly follows a user entry. A failed turn
      leaves a user entry without an answer, so two user entries can meet. */
  lemma {:induction false} TurnsAlternate(log: seq<TurnRecord>)
    ensures forall k :: 0 <= k < |LogMessages(log)| ==>
              LogMessages(log)[k].role == User || LogMessages(log)[k].role == Assistant
    ensures forall k :: 0 <= k < |LogMessages(log)| && LogMessages(log)[k].role == Assistant ==>
              k > 0 && LogMessages(log)[k - 1].role == User
  {
    if log != [] {
      var init := log[..|log| - 1];
      TurnsAlternate(init);
      var prefix := LogMessages(init);
      var all := LogMessages(log);
      assert all == prefix + TurnMessages(log[|log| - 1]);
      forall k | 0 <= k < |prefix| ensures all[k] == prefix[k] { }
    }
  }

  /** The total over several stretches of turns is the sum of their totals,
      so the counter never decreases within a session. */
  lemma {:induction false} TokenTotalAppend(a: seq<TurnRecord>, b: seq<TurnRecord>)
    ensures TokenTotal(a + b) == TokenTotal(a) + TokenTotal(b)
  {
    if b == [] {
      assert a + b == a;
    } else {
      var n := |b| - 1;
      assert (a + b)[..|a + b| - 1] == a + b[..n];
      TokenTotalAppend(a, b[..n]);
    }
  }
}
