/** The agent loop: rounds of model calls with retries, tool calls and their replies, and
    the trimming of the history that goes in front. */
module Harness {
  import opened Text

  datatype Role = System | User | Assistant

  datatype Call = Call(id: string, name: string, args: string)

  datatype Message =
    | Plain(role: Role, text: string)
    | ToolCalls(calls: seq<Call>)
    | ToolReply(id: string, content: string)

  /** What a model call gives: an answer, or an error that is worth retrying or not. */
  datatype Reply = Answer(text: string, calls: seq<Call>) | Failed(transient: bool)

  /** The model sees the transcript so far; the number counts the model calls. */
  type Provider = (nat, seq<Message>) -> Reply

  /** Tools answer with a value or an error, both as text; the number counts tool calls. */
  type Tools = (nat, Call) -> string

  // ---------- trimming the history ----------

  function Cost(messages: seq<Message>, tokens: Message -> nat): nat {
    if messages == [] then 0 else tokens(messages[0]) + Cost(messages[1..], tokens)
  }

  function Suffix(history: seq<Message>, k: nat): seq<Message>
    requires k <= |history|
  {
    history[|history| - k..]
  }

  lemma SuffixLonger(history: seq<Message>, k: nat, tokens: Message -> nat)
    requires k < |history|
    ensures Cost(Suffix(history, k + 1), tokens)
         == tokens(history[|history| - k - 1]) + Cost(Suffix(history, k), tokens)
  {
    assert Suffix(history, k + 1)[1..] == Suffix(history, k);
  }

  lemma {:induction false} SuffixGrows(history: seq<Message>, k: nat, j: nat, tokens: Message -> nat)
    requires k <= j <= |history|
    ensures Cost(Suffix(history, k), tokens) <= Cost(Suffix(history, j), tokens)
  {
    if k < j {
      SuffixGrows(history, k, j - 1, tokens);
      SuffixLonger(history, j - 1, tokens);
    }
  }

  /** The longest suffix within the budget, or just the last message if even that is too
      long. */
  ghost predicate Trimmed(history: seq<Message>, kept: seq<Message>, budget: int, tokens: Message -> nat) {
    && |kept| <= |history| && kept == Suffix(history, |kept|)
    && (history != [] ==> kept != [])
    && (Cost(kept, tokens) <= budget || |kept| <= 1)
    && forall j :: |kept| < j <= |history| ==> Cost(Suffix(history, j), tokens) > budget
  }

  method TrimHistory(history: seq<Message>, budget: int, tokens: Message -> nat)
    returns (kept: seq<Message>)
    ensures Trimmed(history, kept, budget, tokens)
  {
    var total := 0;
    kept := [];
    var i := |history|;
    while i > 0
      invariant 0 <= i <= |history| && |kept| == |history| - i && kept == Suffix(history, |kept|)
      invariant total == Cost(kept, tokens)
      invariant total <= budget || |kept| <= 1
    {
      var t := tokens(history[i - 1]);
      SuffixLonger(history, |kept|, tokens);
      if total + t > budget && |kept| > 0 {
        forall j | |kept| < j <= |history| ensures Cost(Suffix(history, j), tokens) > budget {
          SuffixGrows(history, |kept| + 1, j, tokens);
        }
        return;
      }
      kept := [history[i - 1]] + kept;
      assert kept == Suffix(history, |history| - i + 1);
      total := total + t;
      i := i - 1;
    }
  }

  // ---------- the transcript of the rounds ----------

  /** One round: its first model call and the one that was answered, the text and the tool
      calls of the answer, and what the tools said. */
  datatype Round = Round(first: nat, index: nat, text: string, calls: seq<Call>, results: seq<string>)

  /** The number of model calls made in these rounds. */
  function CallsMade(rounds: seq<Round>): nat {
    if rounds == [] then 0 else rounds[|rounds| - 1].index + 1
  }

  function Replies(calls: seq<Call>, results: seq<string>): (messages: seq<Message>)
    requires |calls| == |results|
    ensures |messages| == |calls|
  {
    seq(|calls|, j requires 0 <= j < |calls| => ToolReply(calls[j].id, results[j]))
  }

  ghost predicate Complete(rounds: seq<Round>) {
    forall k :: 0 <= k < |rounds| ==> |rounds[k].results| == |rounds[k].calls|
  }

  function Added(text: string, calls: seq<Call>, results: seq<string>): seq<Message>
    requires |results| == |calls|
  {
    [Plain(Assistant, text)] + if calls == [] then [] else [ToolCalls(calls)] + Replies(calls, results)
  }

  function Block(round: Round): seq<Message>
    requires |round.results| == |round.calls|
  {
    Added(round.text, round.calls, round.results)
  }

  ghost function Transcript(rounds: seq<Round>): seq<Message>
    requires Complete(rounds)
  {
    if rounds == [] then []
    else Transcript(rounds[..|rounds| - 1]) + Block(rounds[|rounds| - 1])
  }

  function Names(calls: seq<Call>): (names: seq<string>)
    ensures |names| == |calls|
  {
    seq(|calls|, j requires 0 <= j < |calls| => calls[j].name)
  }

  ghost function Used(rounds: seq<Round>): seq<string> {
    if rounds == [] then [] else Used(rounds[..|rounds| - 1]) + Names(rounds[|rounds| - 1].calls)
  }

  /** Model calls on the same transcript that all failed in a way worth retrying. */
  ghost predicate Retried(provider: Provider, messages: seq<Message>, first: nat, end: nat) {
    forall i :: first <= i < end ==> provider(i, messages) == Failed(true)
  }

  /** The calls from `start` on failed for good: the last error was not worth retrying, or
      all retries are used up. */
  ghost predicate GaveUp(
    provider: Provider, messages: seq<Message>, start: nat, end: nat, retries: nat, transient: bool)
  {
    && start < end && Retried(provider, messages, start, end - 1)
    && provider(end - 1, messages) == Failed(transient)
    && (transient ==> end == start + retries + 1)
  }

  /** A round that follows the rounds `before`: the model was called on the transcript so
      far, again only after transient failures; no answer was passed over; and each of its
      tool calls was carried out once, in order. */
  ghost predicate Follows(before: seq<Round>, round: Round, prefix: seq<Message>, provider: Provider, tools: Tools) {
    && Complete(before) && |round.results| == |round.calls|
    && round.first == CallsMade(before) <= round.index
    && Retried(provider, prefix + Transcript(before), round.first, round.index)
    && provider(round.index, prefix + Transcript(before)) == Answer(round.text, round.calls)
    && forall j :: 0 <= j < |round.calls| ==> round.results[j] == tools(|Used(before)| + j, round.calls[j])
  }

  /** Only the last round of a run may lack tool calls. */
  ghost predicate Faithful(rounds: seq<Round>, prefix: seq<Message>, provider: Provider, tools: Tools) {
    forall k :: 0 <= k < |rounds| ==>
      Follows(rounds[..k], rounds[k], prefix, provider, tools) && (k + 1 < |rounds| ==> rounds[k].calls != [])
  }

  ghost predicate AllCall(rounds: seq<Round>) {
    forall k :: 0 <= k < |rounds| ==> rounds[k].calls != []
  }

  /** What the loop has in hand is what the record says. */
  ghost predicate Recorded(
    rounds: seq<Round>, prefix: seq<Message>, messages: seq<Message>, usedTools: seq<string>, finalText: string,
    provider: Provider, tools: Tools)
  {
    && Complete(rounds) && Faithful(rounds, prefix, provider, tools)
    && messages == prefix + Transcript(rounds) && usedTools == Used(rounds)
    && finalText == if rounds == [] then "" else rounds[|rounds| - 1].text
  }

  // ---------- the loop ----------

  datatype Outcome =
    | Finished(text: string, messages: seq<Message>, rounds: nat, usedTools: seq<string>, nudged: bool)
    | Thrown(transient: bool)

  /** One model call with its retries. `count` is the number of model calls afterwards. */
  method CallProvider(provider: Provider, messages: seq<Message>, start: nat, retries: nat)
    returns (reply: Reply, count: nat)
    ensures start < count <= start + retries + 1
    ensures reply == provider(count - 1, messages)
    ensures Retried(provider, messages, start, count - 1)
    ensures reply.Failed? ==> GaveUp(provider, messages, start, count, retries, reply.transient)
  {
    var attempt := 0;
    count := start;
    while true
      invariant 0 <= attempt <= retries && count == start + attempt
      invariant Retried(provider, messages, start, count)
      decreases retries - attempt
    {
      reply := provider(count, messages);
      count := count + 1;
      if reply.Answer? {
        return;
      }
      if !(reply.transient && attempt < retries) {
        return;
      }
      attempt := attempt + 1;
    }
  }

  /** Carries out the calls of one round, in order. */
  method ExecuteTools(tools: Tools, calls: seq<Call>, done: nat, usedTools: seq<string>)
    returns (results: seq<string>, replies: seq<Message>, used: seq<string>)
    ensures |results| == |calls| && replies == Replies(calls, results) && used == usedTools + Names(calls)
    ensures forall j :: 0 <= j < |calls| ==> results[j] == tools(done + j, calls[j])
  {
    results, replies, used := [], [], usedTools;
    for j := 0 to |calls|
      invariant |results| == |replies| == j && used == usedTools + Names(calls)[..j]
      invariant forall k :: 0 <= k < j ==>
        results[k] == tools(done + k, calls[k]) && replies[k] == ToolReply(calls[k].id, results[k])
    {
      var result := tools(done + j, calls[j]);
      used := used + [calls[j].name];
      results := results + [result];
      replies := replies + [ToolReply(calls[j].id, result)];
    }
  }

  /** What an answer adds to the transcript: its text, and its tool calls with their
      replies. */
  method AppendRound(reply: Reply, tools: Tools, messages: seq<Message>, usedTools: seq<string>)
    returns (longer: seq<Message>, used: seq<string>, ghost results: seq<string>)
    requires reply.Answer?
    ensures |results| == |reply.calls| && used == usedTools + Names(reply.calls)
    ensures forall j :: 0 <= j < |reply.calls| ==> results[j] == tools(|usedTools| + j, reply.calls[j])
    ensures longer == messages + Added(reply.text, reply.calls, results)
  {
    longer := messages + [Plain(Assistant, reply.text)];
    if reply.calls == [] {
      assert Names(reply.calls) == [];
      return longer, usedTools, [];
    }
    longer := longer + [ToolCalls(reply.calls)];
    var given, replies;
    given, replies, used := ExecuteTools(tools, reply.calls, |usedTools|, usedTools);
    results := given;
    longer := longer + replies;
  }

  /** Every round makes at most one call and its retries. */
  function CallLimit(rounds: nat, retries: nat): nat {
    rounds * (retries + 1)
  }

  lemma LimitGrows(count: nat, maxRounds: nat, retries: nat)
    requires count < maxRounds
    ensures CallLimit(count + 1, retries) == CallLimit(count, retries) + retries + 1
    ensures CallLimit(count, retries) <= CallLimit(count + 1, retries) <= CallLimit(maxRounds, retries)
  {
    Product(count + 1, maxRounds, retries + 1);
  }

  lemma Product(a: nat, b: nat, c: nat)
    requires a <= b
    ensures a * c <= b * c
  {
  }

  /** One round: the model call with its retries and, if it is answered, the tools. */
  method RunRound(
    provider: Provider, tools: Tools, messages: seq<Message>, usedTools: seq<string>, modelCalls: nat, retries: nat,
    ghost finalText: string, ghost prefix: seq<Message>, ghost rounds: seq<Round>)
    returns (reply: Reply, after: nat, longer: seq<Message>, used: seq<string>, ghost more: seq<Round>)
    requires Recorded(rounds, prefix, messages, usedTools, finalText, provider, tools) && AllCall(rounds)
    requires modelCalls == CallsMade(rounds)
    ensures modelCalls < after <= modelCalls + retries + 1
    ensures reply.Failed? ==> GaveUp(provider, messages, modelCalls, after, retries, reply.transient)
    ensures reply.Answer? ==>
      && Recorded(more, prefix, longer, used, reply.text, provider, tools) && after == CallsMade(more)
      && |more| == |rounds| + 1 && more[|rounds|].calls == reply.calls && (reply.calls != [] ==> AllCall(more))
  {
    RecordedRounds(rounds, prefix, messages, usedTools, finalText, provider, tools);
    hide Recorded, AllCall, Follows, Added, Complete, Faithful, Transcript, Used, Retried, GaveUp, CallsMade, Names;
    reply, after := CallProvider(provider, messages, modelCalls, retries);
    if reply.Failed? {
      return reply, after, messages, usedTools, rounds;
    }
    ghost var results;
    longer, used, results := AppendRound(reply, tools, messages, usedTools);
    ghost var round := Round(modelCalls, after - 1, reply.text, reply.calls, results);
    RoundRecorded(rounds, round, prefix, messages, usedTools, provider, tools);
    more := rounds + [round];
  }

  /** `aborted` tells whether the abort signal is seen at the start of a round. The ghost
      results record the rounds and the number of model calls. */
  method RunAgentLoop(
    system: Message, history: seq<Message>, user: seq<Message>, budget: int, tokens: Message -> nat,
    provider: Provider, tools: Tools, aborted: nat -> bool, maxRounds: nat, retries: nat)
    returns (outcome: Outcome, modelCalls: nat, ghost kept: seq<Message>, ghost rounds: seq<Round>)
    ensures Trimmed(history, kept, budget - tokens(system), tokens)
    ensures Complete(rounds) && |rounds| <= maxRounds && modelCalls <= CallLimit(maxRounds, retries)
    ensures Faithful(rounds, [system] + kept + user, provider, tools)
    ensures match outcome
      case Finished(text, messages, count, usedTools, nudged) =>
        && messages == [system] + kept + user + Transcript(rounds)
        && count == |rounds| && usedTools == Used(rounds)
        && text == (if rounds == [] then "" else rounds[|rounds| - 1].text)
        && (|rounds| == maxRounds || (rounds != [] && rounds[|rounds| - 1].calls == []))
        && !nudged && modelCalls == CallsMade(rounds)
      case Thrown(transient) =>
        || (!transient && aborted(|rounds| + 1) && modelCalls == CallsMade(rounds))
        || GaveUp(provider, [system] + kept + user + Transcript(rounds), CallsMade(rounds), modelCalls, retries,
                  transient)
  {
    hide Recorded, AllCall, Follows, Added, CallLimit, Complete, Faithful, Transcript, Used, Trim, Retried, GaveUp,
      CallsMade, Trimmed;
    var trimmed := TrimHistory(history, budget - tokens(system), tokens);
    kept, rounds := trimmed, [];
    var messages := [system] + trimmed + user;
    ghost var prefix := messages;
    var usedTools: seq<string>, count, finalText := [], 0, "";
    modelCalls := 0;
    NothingRecorded(prefix, provider, tools);
    while count < maxRounds
      invariant count == |rounds| <= maxRounds && modelCalls == CallsMade(rounds) <= CallLimit(count, retries)
      invariant Recorded(rounds, prefix, messages, usedTools, finalText, provider, tools) && AllCall(rounds)
      decreases maxRounds - count
    {
      RecordedRounds(rounds, prefix, messages, usedTools, finalText, provider, tools);
      LimitGrows(count, maxRounds, retries);
      if aborted(count + 1) {
        return Thrown(false), modelCalls, kept, rounds;
      }
      var reply, after, longer, used;
      ghost var more;
      reply, after, longer, used, more :=
        RunRound(provider, tools, messages, usedTools, modelCalls, retries, finalText, prefix, rounds);
      modelCalls := after;
      if reply.Failed? {
        return Thrown(reply.transient), modelCalls, kept, rounds;
      }
      count, finalText := count + 1, reply.text;
      messages, usedTools, rounds := longer, used, more;
      if reply.calls == [] {
        break;
      }
    }
    RecordedRounds(rounds, prefix, messages, usedTools, finalText, provider, tools);
    NeverNudges(rounds, prefix, messages, usedTools, finalText, provider, tools);
    var nudged := count >= 4 && usedTools == [] && Trim(finalText) == "";
    outcome := Finished(finalText, messages, count, usedTools, nudged);
  }

  lemma NothingRecorded(prefix: seq<Message>, provider: Provider, tools: Tools)
    ensures Recorded([], prefix, prefix, [], "", provider, tools) && AllCall([]) && CallsMade([]) == 0
  {
    assert prefix + [] == prefix;
  }

  lemma RecordedRounds(
    rounds: seq<Round>, prefix: seq<Message>, messages: seq<Message>, usedTools: seq<string>, finalText: string,
    provider: Provider, tools: Tools)
    requires Recorded(rounds, prefix, messages, usedTools, finalText, provider, tools)
    ensures Complete(rounds) && Faithful(rounds, prefix, provider, tools) && messages == prefix + Transcript(rounds)
    ensures usedTools == Used(rounds) && finalText == if rounds == [] then "" else rounds[|rounds| - 1].text
  {
    hide Complete, Faithful, Transcript, Used;
  }

  lemma Recording(
    rounds: seq<Round>, prefix: seq<Message>, messages: seq<Message>, usedTools: seq<string>,
    provider: Provider, tools: Tools)
    requires Complete(rounds) && Faithful(rounds, prefix, provider, tools) && rounds != []
    requires messages == prefix + Transcript(rounds) && usedTools == Used(rounds)
    ensures Recorded(rounds, prefix, messages, usedTools, rounds[|rounds| - 1].text, provider, tools)
  {
    hide Complete, Faithful, Transcript, Used;
  }

  /** An answered round is recorded; the run goes on only if it had tool calls. */
  lemma RoundRecorded(
    before: seq<Round>, round: Round, prefix: seq<Message>, messages: seq<Message>, usedTools: seq<string>,
    provider: Provider, tools: Tools)
    requires Complete(before) && Faithful(before, prefix, provider, tools) && AllCall(before)
    requires messages == prefix + Transcript(before) && usedTools == Used(before)
    requires |round.results| == |round.calls| && round.first == CallsMade(before) <= round.index
    requires Retried(provider, messages, round.first, round.index)
    requires provider(round.index, messages) == Answer(round.text, round.calls)
    requires forall j :: 0 <= j < |round.calls| ==> round.results[j] == tools(|usedTools| + j, round.calls[j])
    ensures Recorded(
      before + [round], prefix, messages + Added(round.text, round.calls, round.results),
      usedTools + Names(round.calls), round.text, provider, tools)
    ensures CallsMade(before + [round]) == round.index + 1 && (round.calls != [] ==> AllCall(before + [round]))
  {
    hide Complete, Faithful, Transcript, Used, Follows, AllCall, Names, Added, Retried, Recorded;
    var rounds, added := before + [round], Added(round.text, round.calls, round.results);
    NewRound(before, round, prefix, messages, usedTools, provider, tools);
    Extended(before, round, prefix, provider, tools);
    assert prefix + (Transcript(before) + added) == (prefix + Transcript(before)) + added;
    Recording(rounds, prefix, messages + added, usedTools + Names(round.calls), provider, tools);
  }

  lemma NewRound(
    before: seq<Round>, round: Round, prefix: seq<Message>, messages: seq<Message>, usedTools: seq<string>,
    provider: Provider, tools: Tools)
    requires Complete(before) && messages == prefix + Transcript(before) && usedTools == Used(before)
    requires |round.results| == |round.calls| && round.first == CallsMade(before) <= round.index
    requires Retried(provider, messages, round.first, round.index)
    requires provider(round.index, messages) == Answer(round.text, round.calls)
    requires forall j :: 0 <= j < |round.calls| ==> round.results[j] == tools(|usedTools| + j, round.calls[j])
    ensures Follows(before, round, prefix, provider, tools)
  {
    hide Complete, Transcript, Used, Retried;
  }

  /** One more round keeps the record faithful. */
  lemma Extended(before: seq<Round>, round: Round, prefix: seq<Message>, provider: Provider, tools: Tools)
    requires Faithful(before, prefix, provider, tools) && AllCall(before) && Complete(before)
    requires Follows(before, round, prefix, provider, tools)
    ensures var rounds := before + [round];
      && Complete(rounds) && Faithful(rounds, prefix, provider, tools) && (round.calls != [] ==> AllCall(rounds))
      && Transcript(rounds) == Transcript(before) + Block(round) && Used(rounds) == Used(before) + Names(round.calls)
  {
    var rounds := before + [round];
    assert rounds[..|before|] == before && rounds[|before|] == round;
    hide Follows, Added;
    forall k | 0 <= k < |before| ensures rounds[..k] == before[..k] && rounds[k] == before[k] {
    }
  }

  /** The reminder for several rounds without a tool call cannot be given: a second round
      only happens after a tool call. */
  lemma NeverNudges(
    rounds: seq<Round>, prefix: seq<Message>, messages: seq<Message>, usedTools: seq<string>, finalText: string,
    provider: Provider, tools: Tools)
    requires Recorded(rounds, prefix, messages, usedTools, finalText, provider, tools)
    ensures |rounds| >= 2 ==> usedTools != []
  {
    if |rounds| >= 2 {
      UsedFirst(rounds);
    }
  }

  lemma {:induction false} UsedFirst(rounds: seq<Round>)
    requires rounds != [] && rounds[0].calls != []
    ensures Used(rounds) != []
  {
    if |rounds| == 1 {
      assert rounds[..0] == [];
    } else {
      UsedFirst(rounds[..|rounds| - 1]);
    }
  }

  // ---------- the grammar of the transcript ----------

  /** Position `p` holds tool calls; what follows is one reply to each, in the same order,
      and nothing else is a reply. */
  ghost predicate Answered(t: seq<Message>, p: nat) {
    && p < |t| && t[p].ToolCalls?
    && var calls := t[p].calls;
       && calls != [] && p + |calls| < |t|
       && (forall q :: p < q <= p + |calls| ==> t[q].ToolReply? && t[q].id == calls[q - p - 1].id)
       && (p + 1 + |calls| < |t| ==> !t[p + 1 + |calls|].ToolReply?)
  }

  lemma BlockGrammar(round: Round, p: nat)
    requires |round.results| == |round.calls| && p < |Block(round)|
    ensures !Block(round)[0].ToolReply?
    ensures Block(round)[p].ToolCalls? ==>
      Answered(Block(round), p) && p + 1 + |Block(round)[p].calls| == |Block(round)|
    ensures Block(round)[p].ToolReply? ==> p >= 2 && Answered(Block(round), 1) && p - 2 < |Block(round)[1].calls|
  {
  }

  lemma AnsweredFront(front: seq<Message>, last: seq<Message>, p: nat)
    requires Answered(front, p) && last != [] && !last[0].ToolReply?
    ensures Answered(front + last, p)
  {
    assert forall i :: 0 <= i < |front| ==> (front + last)[i] == front[i];
  }

  lemma AnsweredBack(front: seq<Message>, last: seq<Message>, p: nat)
    requires Answered(last, p)
    ensures Answered(front + last, |front| + p)
  {
    var t := front + last;
    assert forall q :: |front| <= q < |t| ==> t[q] == last[q - |front|];
  }

  lemma {:induction false} ToolCallsAnswered(rounds: seq<Round>, p: nat)
    requires Complete(rounds) && p < |Transcript(rounds)| && Transcript(rounds)[p].ToolCalls?
    ensures Answered(Transcript(rounds), p)
  {
    var front, last := Transcript(rounds[..|rounds| - 1]), Block(rounds[|rounds| - 1]);
    assert Transcript(rounds) == front + last;
    hide Block, Transcript, Answered;
    if p < |front| {
      ToolCallsAnswered(rounds[..|rounds| - 1], p);
      BlockGrammar(rounds[|rounds| - 1], 0);
      AnsweredFront(front, last, p);
    } else {
      BlockGrammar(rounds[|rounds| - 1], p - |front|);
      AnsweredBack(front, last, p - |front|);
    }
  }

  /** Every tool reply answers a call: it lies within the replies to some tool calls. */
  lemma {:induction false} RepliesBelong(rounds: seq<Round>, p: nat)
    requires Complete(rounds) && p < |Transcript(rounds)| && Transcript(rounds)[p].ToolReply?
    ensures exists q :: 0 <= q < p && Answered(Transcript(rounds), q) && p - q <= |Transcript(rounds)[q].calls|
  {
    var front, last := Transcript(rounds[..|rounds| - 1]), Block(rounds[|rounds| - 1]);
    assert Transcript(rounds) == front + last;
    if p < |front| {
      RepliesBelong(rounds[..|rounds| - 1], p);
      var q :| 0 <= q < p && Answered(front, q) && p - q <= |front[q].calls|;
      BlockGrammar(rounds[|rounds| - 1], 0);
      AnsweredFront(front, last, q);
    } else {
      BlockGrammar(rounds[|rounds| - 1], p - |front|);
      AnsweredBack(front, last, 1);
      assert (front + last)[|front| + 1] == last[1];
    }
  }
}
