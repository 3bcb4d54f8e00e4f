/** One turn of the agent: rounds of a model call and the tools it asks for, against a model endpoint that
    may reply anything at all. */
module AgentTurn {
  import opened Lists

  datatype ToolCall = ToolCall(id: string, name: string, args: string)

  /** Given is a system or user message. */
  datatype Message =
    | Given(text: string)
    | Assistant(text: string, calls: seq<ToolCall>)
    | ToolResult(id: string, text: string)

  datatype Usage = Usage(prompt: int, output: int, cached: int, reasoning: int, cost: real, estimated: bool,
    owner: string)

  const NOTHING := Usage(0, 0, 0, 0, 0.0, false, "")

  /** u with one more call's usage folded in. */
  function Plus(u: Usage, o: Usage): Usage {
    Usage(u.prompt + o.prompt, u.output + o.output, u.cached + o.cached, u.reasoning + o.reasoning, u.cost + o.cost,
          u.estimated || o.estimated, if u.owner == "" then o.owner else u.owner)
  }

  datatype Reply = Failed | NoChoices(usage: Usage) | Said(usage: Usage, text: string, calls: seq<ToolCall>)

  datatype Choice = Auto | NoTool | Named(name: string)

  /** Everything a turn meets that it does not decide: the replies, the clock, the stops, the tools. */
  datatype World = World(
    offered: nat -> nat,                            // how many tools a round offers
    stopped: nat -> bool,                           // a stop asked for elsewhere, read before a round
    room: nat -> bool,                              // whether the clock has room for another round
    ceiling: real,
    routine: bool,
    chat: (nat, seq<Message>, nat, Choice) -> Reply, // the reply to the k-th completion
    known: (nat, string) -> bool,                   // whether the k-th call names a tool there is
    run: (nat, string, string) -> string,           // what the k-th call returns
    textCall: string -> Option<(string, string)>,   // a tool call written out as text
    blank: string -> bool,                          // nothing left once markup is stripped
    fp: (string, string) -> string,              // a call's fingerprint
    shape: (string, string) -> string)              // the same with its numbers taken out

  datatype Outcome = Answered(text: string) | ChatFailed | NoChoiceReturned | RoundCap

  const MAX_RUN_ROUNDS := 200
  const MAX_ROUNDS_CEILING := 80
  const THREAD_TOOL_CALLS := 100
  const TURN_MAX_PROMPT_TOKENS := 8_000_000
  const REPEAT_RUNS_ALLOWED := 3
  const STUCK_AFTER_ROUNDS := 4
  const ROUTINE_SKIPS_ALLOWED := 5

  /** How many rounds a turn may spend: a run's own number, or the scope's. */
  function RoundsFor(own: int, scope: int): (r: nat)
    ensures 1 <= r <= MAX_RUN_ROUNDS
  {
    if own > 0 then Min(own, MAX_RUN_ROUNDS) else Min(Max(scope, 1), MAX_ROUNDS_CEILING)
  }

  predicate OverSpent(u: Usage, ceiling: real) {
    ceiling > 0.0 && if u.cost > 0.0 then u.cost >= ceiling else u.prompt >= TURN_MAX_PROMPT_TOKENS
  }

  function LandingChoice(offered: nat): Choice { if offered == 0 then Auto else NoTool }

  // ---- a transcript a provider accepts ----

  function IdOf(c: ToolCall): string { c.id }

  /** The ids of calls still to be answered after ms, if ms is a transcript so far: a tool message answers
      the first call waiting, and nothing else may stand before every call is answered. */
  function Awaiting(ms: seq<Message>): Option<seq<string>> {
    if ms == [] then Some([])
    else
      match Awaiting(ms[..|ms| - 1])
      case None => None
      case Some(waiting) =>
        match ms[|ms| - 1]
        case Given(_) => if waiting == [] then Some([]) else None
        case Assistant(_, calls) => if waiting == [] then Some(Map(calls, IdOf)) else None
        case ToolResult(id, _) => if waiting != [] && waiting[0] == id then Some(waiting[1..]) else None
  }

  predicate Paired(ms: seq<Message>) { Awaiting(ms) == Some([]) }

  lemma {:induction false} AwaitingSnoc(ms: seq<Message>, m: Message)
    ensures Awaiting(ms + [m]) ==
      match Awaiting(ms)
      case None => None
      case Some(waiting) =>
        match m
        case Given(_) => if waiting == [] then Some([]) else None
        case Assistant(_, calls) => if waiting == [] then Some(Map(calls, IdOf)) else None
        case ToolResult(id, _) => if waiting != [] && waiting[0] == id then Some(waiting[1..]) else None
  {
    assert (ms + [m])[..|ms|] == ms;
  }

  lemma {:induction false} AwaitingPrefix(ms: seq<Message>, k: nat)
    requires k <= |ms| && Awaiting(ms).Some?
    ensures Awaiting(ms[..k]).Some?
    decreases |ms|
  {
    if k < |ms| {
      var front := ms[..|ms| - 1];
      AwaitingPrefix(front, k);
      assert front[..k] == ms[..k];
    } else {
      assert ms[..k] == ms;
    }
  }

  lemma {:induction false} AwaitingAfterCall(ms: seq<Message>, i: nat, j: nat)
    requires Awaiting(ms).Some? && i + 1 + j <= |ms| && ms[i].Assistant? && j <= |ms[i].calls|
    ensures Awaiting(ms[..i + 1 + j]) == Some(Map(ms[i].calls, IdOf)[j..])
    ensures j > 0 ==> ms[i + j].ToolResult? && ms[i + j].id == ms[i].calls[j - 1].id
  {
    var k := i + 1 + j;
    AwaitingPrefix(ms, k);
    assert ms[..k] == ms[..k - 1] + [ms[k - 1]];
    AwaitingSnoc(ms[..k - 1], ms[k - 1]);
    if j > 0 {
      AwaitingAfterCall(ms, i, j - 1);
      assert i + 1 + (j - 1) == k - 1;
      var waiting := Map(ms[i].calls, IdOf)[j - 1..];
      assert waiting[0] == ms[i].calls[j - 1].id && waiting[1..] == Map(ms[i].calls, IdOf)[j..];
    }
  }

  /** In a paired transcript every assistant message's calls are answered, each by the one message in its
      place after it and with its own id. */
  lemma {:induction false} EveryCallAnswered(ms: seq<Message>, i: nat, j: nat)
    requires Paired(ms) && i < |ms| && ms[i].Assistant? && j < |ms[i].calls|
    ensures i + 1 + j < |ms| && ms[i + 1 + j].ToolResult? && ms[i + 1 + j].id == ms[i].calls[j].id
  {
    assert ms[..|ms|] == ms;
    if i + 1 + j < |ms| {
      AwaitingAfterCall(ms, i, j + 1);
    } else {
      AwaitingAfterCall(ms, i, |ms| - i - 1);
    }
  }

  /** What conversation() builds: no tool calls and no tool results. */
  predicate PlainThread(ms: seq<Message>) {
    forall i :: 0 <= i < |ms| ==> ms[i].Given? || (ms[i].Assistant? && ms[i].calls == [])
  }

  lemma {:induction false} PlainIsPaired(ms: seq<Message>)
    requires PlainThread(ms)
    ensures Paired(ms)
  {
    if ms != [] {
      PlainIsPaired(ms[..|ms| - 1]);
    }
  }

  // ---- the guard against a turn that repeats itself ----

  class RepeatGuard {
    var seen: map<string, nat>
    var answers: map<(string, string), nat>
    var quiet: nat
    var total: nat
    var skips: nat

    constructor ()
      ensures seen == map[] && answers == map[] && quiet == total == skips == 0
    {
      seen, answers, quiet, total, skips := map[], map[], 0, 0, 0;
    }

    method Count(fp: string) returns (n: nat)
      modifies this`seen, this`total
      ensures n == (if fp in old(seen) then old(seen)[fp] else 0) + 1
      ensures seen == old(seen)[fp := n]
    {
      n := (if fp in seen then seen[fp] else 0) + 1;
      seen := seen[fp := n];
      if n > 1 {
        total := total + 1;
      }
    }

    /** Whether a call told the turn anything: the same shape has not produced this answer before. */
    method Progressed(shape: string, out: string) returns (fresh_: bool)
      modifies this`answers, this`total
      ensures fresh_ <==> (shape, out) !in old(answers)
      ensures (shape, out) in answers && forall k :: k in old(answers) ==> k in answers
    {
      var n := (if (shape, out) in answers then answers[(shape, out)] else 0) + 1;
      fresh_ := (shape, out) !in answers;
      answers := answers[(shape, out) := n];
      if !fresh_ {
        total := total + 1;
      }
    }

    method EndRound(fresh_: bool)
      modifies this`quiet
      ensures quiet == if fresh_ then 0 else old(quiet) + 1
    {
      quiet := if fresh_ then 0 else quiet + 1;
    }

    predicate Stuck()
      reads this
    {
      quiet >= STUCK_AFTER_ROUNDS
    }

    predicate CanSkip(routine: bool)
      reads this
    {
      routine && skips < ROUTINE_SKIPS_ALLOWED
    }

    method Skip()
      modifies this`quiet, this`skips
      ensures quiet == 0 && skips == old(skips) + 1
    {
      quiet, skips := 0, skips + 1;
    }
  }

  // ---- the record a turn is judged by ----

  /** One completion the turn made: its round, what was sent, and the reply. */
  datatype Completion = Completion(round: nat, sent: seq<Message>, choice: Choice, offered: nat, reply: Reply)

  predicate Returned(c: Completion) { !c.reply.Failed? }

  predicate Says(c: Completion, text: string) { c.reply.Said? && c.reply.text == text }

  predicate Lands(c: Completion) { c.choice == LandingChoice(c.offered) }

  /** A call written out as text, where the model could have made one. */
  predicate Written(w: World, c: Completion) {
    c.reply.Said? && c.reply.calls == [] && !c.choice.Named? && w.textCall(c.reply.text).Some?
  }

  predicate Rescued(w: World, trace: seq<Completion>) {
    trace != [] && (Rescued(w, trace[..|trace| - 1]) || Written(w, trace[|trace| - 1]))
  }

  /** A reply that, after those before it, is no end to a turn: it calls tools, leaves a named one uncalled, or is
      the first to write a call out as text. */
  predicate CarriesOn(w: World, before: seq<Completion>, c: Completion) {
    c.reply.Said? && (c.reply.calls != [] || c.choice.Named? || (Written(w, c) && !Rescued(w, before)))
  }

  predicate Carried(w: World, trace: seq<Completion>) {
    trace == [] ||
    var n := |trace| - 1;
    Carried(w, trace[..n]) && CarriesOn(w, trace[..n], trace[n])
  }

  /** Each reply is the world's to what was sent. */
  predicate Replied(w: World, trace: seq<Completion>) {
    trace == [] ||
    var n := |trace| - 1;
    var c := trace[n];
    Replied(w, trace[..n]) && c.reply == w.chat(ReturnedCount(trace[..n]), c.sent, c.offered, c.choice)
  }

  lemma {:induction false} RepliedSnoc(w: World, trace: seq<Completion>, c: Completion)
    requires Replied(w, trace) && c.reply == w.chat(ReturnedCount(trace), c.sent, c.offered, c.choice)
    ensures Replied(w, trace + [c])
  {
    assert (trace + [c])[..|trace|] == trace;
  }

  lemma {:induction false} RepliedAt(w: World, trace: seq<Completion>, k: nat)
    requires Replied(w, trace) && k < |trace|
    ensures var c := trace[k]; c.reply == w.chat(ReturnedCount(trace[..k]), c.sent, c.offered, c.choice)
  {
    var front := trace[..|trace| - 1];
    if k < |front| {
      RepliedAt(w, front, k);
      assert front[..k] == trace[..k];
    }
  }

  lemma {:induction false} CarriedSnoc(w: World, trace: seq<Completion>, c: Completion)
    ensures Carried(w, trace + [c]) <==> Carried(w, trace) && CarriesOn(w, trace, c)
    ensures Rescued(w, trace + [c]) <==> Rescued(w, trace) || Written(w, c)
  {
    assert (trace + [c])[..|trace|] == trace;
  }

  /** Why a turn stops searching in a round, of what can be told without its guard: four rounds that told it
      nothing new take four rounds. */
  predicate MayLand(w: World, before: seq<Completion>, round: nat, rounds: nat) {
    && w.offered(round) > 0
    && (round == rounds - 1 || !w.room(round) || OverSpent(Spent(before), w.ceiling) || round >= STUCK_AFTER_ROUNDS)
  }

  /** The calls a completion came back with stand in ms right after what it was sent. */
  predicate Followed(c: Completion, ms: seq<Message>) {
    c.reply.Said? && c.reply.calls != [] ==>
      |c.sent| < |ms| && ms[|c.sent|] == Assistant(c.reply.text, c.reply.calls)
  }

  lemma FollowedOn(c: Completion, ms: seq<Message>, more: seq<Message>)
    requires Followed(c, ms) && ms <= more
    ensures Followed(c, more)
  {
  }

  /** What a completion in a round may be sent after the ones there were. */
  predicate GoesOn(trace: seq<Completion>, round: nat, sent: seq<Message>) {
    && Paired(sent)
    && (trace != [] ==>
          trace[|trace| - 1].sent <= sent && (trace[|trace| - 1].round != round ==> Followed(trace[|trace| - 1], sent)))
  }

  /** Each completion was sent a transcript a provider accepts, which goes on from what the one before was
      sent and, in a later round, with the calls that one made. */
  predicate Chained(trace: seq<Completion>) {
    trace == [] ||
    var n := |trace| - 1;
    Chained(trace[..n]) && GoesOn(trace[..n], trace[n].round, trace[n].sent)
  }

  lemma {:induction false} ChainedSnoc(trace: seq<Completion>, c: Completion)
    requires Chained(trace) && GoesOn(trace, c.round, c.sent)
    ensures Chained(trace + [c])
  {
    assert (trace + [c])[..|trace|] == trace;
  }

  /** Of any two completions the later was sent all the earlier was, and between rounds the calls the earlier
      made, each answered in its place. */
  lemma {:induction false} SentGrows(trace: seq<Completion>, j: nat, k: nat)
    requires Chained(trace) && j < k < |trace|
    ensures trace[j].sent <= trace[k].sent && Paired(trace[k].sent)
    ensures trace[j].round != trace[j + 1].round ==> Followed(trace[j], trace[k].sent)
    decreases |trace|
  {
    var n := |trace| - 1;
    if k < n {
      SentGrows(trace[..n], j, k);
    } else if j < n - 1 {
      SentGrows(trace[..n], j, n - 1);
    }
  }

  /** The usage of every completion that came back, in order. */
  function Spent(trace: seq<Completion>): Usage {
    if trace == [] then NOTHING
    else
      var n := |trace| - 1;
      if Returned(trace[n]) then Plus(Spent(trace[..n]), trace[n].reply.usage) else Spent(trace[..n])
  }

  function ReturnedCount(trace: seq<Completion>): nat {
    if trace == [] then 0
    else ReturnedCount(trace[..|trace| - 1]) + if Returned(trace[|trace| - 1]) then 1 else 0
  }

  lemma {:induction false} SpentSnoc(trace: seq<Completion>, c: Completion)
    ensures Spent(trace + [c]) == if Returned(c) then Plus(Spent(trace), c.reply.usage) else Spent(trace)
    ensures ReturnedCount(trace + [c]) == ReturnedCount(trace) + if Returned(c) then 1 else 0
  {
    assert (trace + [c])[..|trace|] == trace;
  }

  /** What is spent over two stretches of a turn is the sum of what each spent: nothing is counted twice
      and no call that came back is missed, wherever the turn stops. */
  lemma {:induction false} SpentAddsUp(a: seq<Completion>, b: seq<Completion>)
    ensures Spent(a + b).cost == Spent(a).cost + Spent(b).cost
    ensures Spent(a + b).prompt == Spent(a).prompt + Spent(b).prompt
    ensures Spent(a + b).output == Spent(a).output + Spent(b).output
    decreases |b|
  {
    if b == [] {
      assert a + b == a;
    } else {
      var n := |b| - 1;
      assert (a + b)[..|a + b| - 1] == a + b[..n];
      SpentAddsUp(a, b[..n]);
    }
  }

  /** What was run is within what was seen and within what the guard allows. */
  ghost predicate Counted(runs: multiset<string>, seen: map<string, nat>) {
    forall p :: runs[p] <= REPEAT_RUNS_ALLOWED && runs[p] <= (if p in seen then seen[p] else 0)
  }

  lemma {:induction false} CountedMore(runs: multiset<string>, seen: map<string, nat>, fp: string)
    requires Counted(runs, seen)
    ensures var n := (if fp in seen then seen[fp] else 0) + 1;
            Counted(runs, seen[fp := n]) && (n <= REPEAT_RUNS_ALLOWED ==> Counted(runs + multiset{fp}, seen[fp := n]))
  {
  }

  // ---- the turn ----

  class Call {
    var messages: seq<Message>
    var usage: Usage
    var completions: nat
    var toolCalls: nat    // the session's, counted across every turn in the thread
    var attempts: nat
    const rounds: nat
    ghost var trace: seq<Completion>
    ghost var runs: multiset<string> // fingerprints of the calls the model made that were run
    ghost var landedAt: Option<nat>
    ghost var callsAtLanding: nat

    constructor (rounds: nat, initial: seq<Message>, sessionCalls: nat)
      ensures this.rounds == rounds && messages == initial && usage == NOTHING && completions == 0
      ensures toolCalls == sessionCalls && trace == [] && runs == multiset{} && landedAt == None
    {
      this.rounds, messages, usage, completions := rounds, initial, NOTHING, 0;
      toolCalls, attempts, trace, runs, landedAt, callsAtLanding := sessionCalls, 0, [], multiset{}, None, 0;
    }

    function Budget(): nat { Max(rounds * 2, THREAD_TOOL_CALLS) }

    /** Every paid call is folded in the moment it comes back. */
    ghost predicate Booked()
      reads this
    {
      usage == Spent(trace) && completions == ReturnedCount(trace)
    }

    method Chat(w: World, round: nat, sent: seq<Message>, offered: nat, choice: Choice) returns (reply: Reply)
      requires Booked() && Chained(trace) && GoesOn(trace, round, sent)
      modifies this`trace, this`usage, this`completions
      ensures Booked() && Chained(trace)
      ensures trace == old(trace) + [Completion(round, sent, choice, offered, reply)]
      ensures old(Replied(w, trace)) ==> Replied(w, trace)
    {
      reply := w.chat(completions, sent, offered, choice);
      ghost var c := Completion(round, sent, choice, offered, reply);
      SpentSnoc(trace, c);
      ChainedSnoc(trace, c);
      if Replied(w, trace) {
        RepliedSnoc(w, trace, c);
      }
      trace := trace + [c];
      if !reply.Failed? {
        usage := Plus(usage, reply.usage);
        completions := completions + 1;
      }
    }

    /** A tool runs exactly when there is one of that name and the thread has calls left. */
    method RunTool(w: World, name: string, args: string) returns (out: string)
      modifies this`toolCalls, this`attempts
      ensures attempts == old(attempts) + 1
      ensures toolCalls == old(toolCalls) + if w.known(attempts, name) && old(toolCalls) < Budget() then 1 else 0
      ensures toolCalls > old(toolCalls) ==> out == w.run(attempts, name, args)
    {
      attempts := attempts + 1;
      if !w.known(attempts, name) {
        return "error: unknown tool";
      }
      if toolCalls >= Budget() {
        return "error: budget used";
      }
      out := w.run(attempts, name, args);
      toolCalls := toolCalls + 1;
    }

    /** A call the model made, run or refused as the guard says. */
    method Answer(w: World, g: RepeatGuard, c: ToolCall) returns (out: string, told: bool)
      requires RunsBounded(g)
      modifies this`toolCalls, this`attempts, this`runs, g`seen, g`answers, g`total
      ensures RunsBounded(g)
      ensures old(toolCalls) <= toolCalls <= Max(old(toolCalls), Budget())
      ensures var fp := w.fp(c.name, c.args);
              var n := (if fp in old(g.seen) then old(g.seen)[fp] else 0) + 1;
              && g.seen == old(g.seen)[fp := n]
              && (if n <= REPEAT_RUNS_ALLOWED then runs == old(runs) + multiset{fp} && attempts == old(attempts) + 1
                  else runs == old(runs) && attempts == old(attempts) && toolCalls == old(toolCalls))
              && (told ==> n == 1)
    {
      var fp := w.fp(c.name, c.args);
      CountedMore(runs, g.seen, fp);
      var n := g.Count(fp);
      told := false;
      if n == 1 {
        runs := runs + multiset{fp};
        out := RunTool(w, c.name, c.args);
        told := g.Progressed(w.shape(c.name, c.args), out);
        if !told {
          out := "same result as before: " + out;
        }
      } else if n <= REPEAT_RUNS_ALLOWED {
        runs := runs + multiset{fp};
        out := RunTool(w, c.name, c.args);
        out := "run before: " + out;
      } else {
        out := "error: refused";
      }
    }

    /** No call the model makes is run more often than the guard allows. */
    ghost predicate RunsBounded(g: RepeatGuard)
      reads this, g
    {
      Counted(runs, g.seen)
    }

    /** An assistant message and the answers to its calls, in order. */
    method RunCalls(w: World, g: RepeatGuard, text: string, calls: seq<ToolCall>) returns (fresh_: bool)
      requires Paired(messages) && RunsBounded(g)
      modifies this`messages, this`toolCalls, this`attempts, this`runs, g`seen, g`answers, g`total
      ensures Paired(messages) && RunsBounded(g)
      ensures old(toolCalls) <= toolCalls <= Max(old(toolCalls), Budget())
      ensures old(messages) + [Assistant(text, calls)] <= messages && |messages| == |old(messages)| + 1 + |calls|
    {
      AwaitingSnoc(messages, Assistant(text, calls));
      messages := messages + [Assistant(text, calls)];
      ghost var asked := messages;
      fresh_ := false;
      ghost var ids := Map(calls, IdOf);
      for i := 0 to |calls|
        invariant Awaiting(messages) == Some(ids[i..]) && RunsBounded(g)
        invariant asked <= messages && |messages| == |asked| + i
        invariant old(toolCalls) <= toolCalls <= Max(old(toolCalls), Budget())
      {
        var out, told := Answer(w, g, calls[i]);
        fresh_ := fresh_ || told;
        AwaitingSnoc(messages, ToolResult(calls[i].id, out));
        messages := messages + [ToolResult(calls[i].id, out)];
        assert ids[i..][1..] == ids[i + 1..];
      }
      assert ids[|calls|..] == [];
    }

    method Tell(text: string)
      requires Paired(messages)
      modifies this`messages
      ensures Paired(messages) && messages == old(messages) + [Given(text)]
    {
      AwaitingSnoc(messages, Given(text));
      messages := messages + [Given(text)];
    }

    /** What holds of a turn wherever it stands: each completion was sent a paired transcript, which goes on
        from what the one before was sent and, in a later round, with the calls that one made; what came
        back is booked; and the thread's tool calls are within its budget. */
    ghost predicate Sound(sessionCalls: nat)
      reads this
    {
      && Booked()
      && Chained(trace)
      && toolCalls <= Max(sessionCalls, Budget())
    }

    /** The transcript carries on from what was sent last. */
    ghost predicate Heard()
      reads this
    {
      trace != [] ==> trace[|trace| - 1].sent <= messages
    }

    ghost predicate OfferedBefore(w: World, round: nat) { forall r :: 0 <= r < round ==> w.offered(r) > 0 }

    /** The top of a round: one completion for each round before it, and no landing. */
    ghost predicate Ready(w: World, g: RepeatGuard, sessionCalls: nat, round: nat)
      reads this, g
    {
      && Sound(sessionCalls) && Paired(messages) && RunsBounded(g) && landedAt == None
      && Heard() && (|trace| > 0 ==> Followed(trace[|trace| - 1], messages))
      && |trace| == round && (forall k :: 0 <= k < |trace| ==> trace[k].round < round) && Carried(w, trace) &&
           Replied(w, trace)
      && g.skips <= ROUTINE_SKIPS_ALLOWED && g.quiet <= round
      && (OfferedBefore(w, round) ==> g.quiet <= STUCK_AFTER_ROUNDS)
    }

    /** The end of a turn in a round: it landed there or its reply was no reason to carry on, as every one before
        was; nothing came after a landing, which ran no tool and asked for none. */
    ghost predicate Ended(w: World, sessionCalls: nat, round: nat, outcome: Outcome)
      reads this
    {
      && Sound(sessionCalls) && (forall p :: runs[p] <= REPEAT_RUNS_ALLOWED)
      && round < |trace| <= round + 2 && Carried(w, trace[..round]) && Replied(w, trace)
      && (landedAt == None ==> !CarriesOn(w, trace[..round], trace[round]))
      && (forall k :: 0 <= k < |trace| ==> trace[k].round <= round)
      && (|trace| == round + 2 ==> landedAt == Some(round))
      && !outcome.RoundCap?
      && (outcome.Answered? ==> Says(trace[|trace| - 1], outcome.text))
      && (landedAt.Some? ==>
            && landedAt.value == round && toolCalls == callsAtLanding && MayLand(w, trace[..round], round, rounds)
            && forall k :: 0 <= k < |trace| && trace[k].round == round ==> Lands(trace[k]))
    }

    /** What ends a turn's searching: its last round, its clock, its spend, or repeating itself with no item
        left to skip to. */
    predicate MustLand(w: World, g: RepeatGuard, round: nat)
      reads this, g
    {
      || round == rounds - 1 || !w.room(round) || OverSpent(usage, w.ceiling)
      || (g.Stuck() && !g.CanSkip(w.routine))
    }

    /** Whether the turn stops searching in this round, and is told so. */
    method Land(w: World, g: RepeatGuard, round: nat, offered: nat) returns (landed: bool)
      requires Paired(messages) && landedAt == None && g.skips <= ROUTINE_SKIPS_ALLOWED
      modifies this`messages, this`landedAt, this`callsAtLanding, g`quiet, g`skips
      ensures Paired(messages) && g.skips <= ROUTINE_SKIPS_ALLOWED
      ensures landedAt == if landed then Some(round) else None
      ensures landed ==> callsAtLanding == toolCalls
      ensures landed <==> offered > 0 && old(MustLand(w, g, round))
      ensures old(messages) <= messages
      ensures offered > 0 && !landed ==> g.quiet < STUCK_AFTER_ROUNDS
      ensures g.quiet <= old(g.quiet) && (offered == 0 ==> g.quiet == old(g.quiet))
    {
      landed := false;
      if offered > 0 {
        var note := "";
        if round == rounds - 1 || !w.room(round) {
          note := "out of rounds";
        } else if OverSpent(usage, w.ceiling) {
          note := "out of spend";
        } else if g.Stuck() && g.CanSkip(w.routine) {
          g.Skip();
          Tell("skip to the next item");
        } else if g.Stuck() {
          note := "stuck";
        }
        if note != "" {
          landed := true;
          landedAt, callsAtLanding := Some(round), toolCalls;
          Tell(note);
        }
      }
    }

    /** A landing whose reply was only dropped calls: asked once more with the tools gone. */
    method AskAgain(w: World, round: nat) returns (reply: Reply)
      requires Paired(messages) && Booked() && Chained(trace) && Replied(w, trace)
      requires trace != [] && trace[|trace| - 1].sent == messages && trace[|trace| - 1].round == round
      modifies this`trace, this`usage, this`completions
      ensures Booked() && Chained(trace) && Replied(w, trace) && |trace| == |old(trace)| + 1 && old(trace) <= trace
      ensures var c := trace[|old(trace)|]; Paired(c.sent) && c.sent == messages + [Given("no tools")]
      ensures var c := trace[|old(trace)|]; c.reply == reply && c.round == round && Lands(c)
    {
      AwaitingSnoc(messages, Given("no tools"));
      reply := Chat(w, round, messages + [Given("no tools")], 0, Auto);
    }

    /** A round whose completion was asked for, landing or not. */
    ghost predicate Asked(w: World, g: RepeatGuard, sessionCalls: nat, round: nat, landed: bool)
      reads this, g
    {
      && Sound(sessionCalls) && Paired(messages) && RunsBounded(g) && Heard()
      && landedAt == (if landed then Some(round) else None)
      && |trace| == round + 1 && (forall k :: 0 <= k < round ==> trace[k].round < round) && trace[round].round == round
      && trace[round].sent == messages && Carried(w, trace[..round]) && Replied(w, trace)
      && (landed ==> MayLand(w, trace[..round], round, rounds) && toolCalls == callsAtLanding && Lands(trace[round]))
      && g.skips <= ROUTINE_SKIPS_ALLOWED && g.quiet <= round
      && (!landed && OfferedBefore(w, round + 1) ==> g.quiet < STUCK_AFTER_ROUNDS)
    }

    method Ask(w: World, g: RepeatGuard, round: nat, forced: string, ghost sessionCalls: nat)
      returns (landed: bool, choice: Choice, reply: Reply)
      requires round < rounds && Ready(w, g, sessionCalls, round)
      modifies this`messages, this`landedAt, this`callsAtLanding, this`trace, this`usage, this`completions, g`quiet,
        g`skips
      ensures Asked(w, g, sessionCalls, round, landed) && trace[round].reply == reply && trace[round].choice == choice
      ensures trace[..round] == old(trace)
      ensures landed ==> !choice.Named?
      ensures !landed && round == rounds - 1 ==> w.offered(round) == 0
    {
      var offered := w.offered(round);
      ghost var before := messages;
      landed := Land(w, g, round, offered);
      if trace != [] {
        FollowedOn(trace[|trace| - 1], before, messages);
      }
      choice := if landed then LandingChoice(offered) else if round == 0 && forced != "" then Named(forced) else Auto;
      reply := Chat(w, round, messages, offered, choice);
      assert trace[..round] == old(trace);
    }

    /** The end of a round that landed: what the model wrote is the answer, and the calls it made all the
        same are dropped. */
    method Write(w: World, g: RepeatGuard, round: nat, said: string, calls: seq<ToolCall>, ghost sessionCalls: nat)
      returns (outcome: Outcome)
      requires Asked(w, g, sessionCalls, round, true)
      requires var reply := trace[round].reply; reply.Said? && reply.text == said && reply.calls == calls
      modifies this`trace, this`usage, this`completions
      ensures Ended(w, sessionCalls, round, outcome)
    {
      var text := said;
      if calls != [] && w.blank(text) {
        var reply := AskAgain(w, round);
        assert trace[..round] == old(trace)[..round];
        if reply.Failed? {
          return ChatFailed;
        }
        if reply.NoChoices? {
          return NoChoiceReturned;
        }
        text := reply.text;
      }
      return Answered(text);
    }

    /** A tool run on the model's behalf, and what it returned handed to it. */
    method RunFor(w: World, g: RepeatGuard, round: nat, name: string, args: string, note: string,
                  ghost sessionCalls: nat)
      requires Asked(w, g, sessionCalls, round, false) && trace[round].reply.Said? && trace[round].reply.calls == []
      requires CarriesOn(w, trace[..round], trace[round])
      modifies this`messages, this`toolCalls, this`attempts
      ensures Ready(w, g, sessionCalls, round + 1)
    {
      CarriedSnoc(w, trace[..round], trace[round]);
      assert trace[..round] + [trace[round]] == trace;
      var out := RunTool(w, name, args);
      Tell(note + out);
    }

    /** The end of a round that did not land: a tool run for a model that would not call it, an answer, or
        the calls it made. */
    method Search(w: World, g: RepeatGuard, round: nat, choice: Choice, text: string, calls: seq<ToolCall>,
                  repaired: bool,
                  ghost sessionCalls: nat) returns (end: Option<Outcome>, repairedNow: bool)
      requires Asked(w, g, sessionCalls, round, false)
      requires var reply := trace[round].reply; reply.Said? && reply.text == text && reply.calls == calls
      requires trace[round].choice == choice && repaired == Rescued(w, trace[..round])
      modifies this`messages, this`toolCalls, this`attempts, this`runs, g
      ensures end.None? ==> Ready(w, g, sessionCalls, round + 1) && repairedNow == Rescued(w, trace)
      ensures end.Some? ==> Ended(w, sessionCalls, round, end.value)
    {
      repairedNow := repaired;
      CarriedSnoc(w, trace[..round], trace[round]);
      assert trace[..round] + [trace[round]] == trace;
      if calls == [] {
        if choice.Named? {
          RunFor(w, g, round, choice.name, "query", "I ran it for you: ", sessionCalls);
          return None, repairedNow;
        }
        var written := w.textCall(text);
        if repaired || written.None? {
          return Some(Answered(text)), repairedNow;
        }
        repairedNow := true;
        RunFor(w, g, round, written.value.0, written.value.1, "you wrote the call as text: ", sessionCalls);
        return None, repairedNow;
      }
      var told := RunCalls(w, g, text, calls);
      g.EndRound(told);
      return None, repairedNow;
    }

    /** One round. end is how the turn ends in it, if it does. */
    method Round(w: World, g: RepeatGuard, round: nat, forced: string, repaired: bool, ghost sessionCalls: nat)
      returns (end: Option<Outcome>, repairedNow: bool)
      requires round < rounds && Ready(w, g, sessionCalls, round) && repaired == Rescued(w, trace)
      modifies this, g
      ensures end.None? ==> Ready(w, g, sessionCalls, round + 1) && repairedNow == Rescued(w, trace)
      ensures end.None? ==> (round == rounds - 1 ==> w.offered(round) == 0)
      ensures end.Some? ==> Ended(w, sessionCalls, round, end.value)
    {
      var landed, choice, reply := Ask(w, g, round, forced, sessionCalls);
      if reply.Failed? {
        return Some(ChatFailed), repaired;
      }
      if reply.NoChoices? {
        return Some(NoChoiceReturned), repaired;
      }
      if landed {
        var outcome := Write(w, g, round, reply.text, reply.calls, sessionCalls);
        return Some(outcome), repaired;
      }
      end, repairedNow := Search(w, g, round, choice, reply.text, reply.calls, repaired, sessionCalls);
    }

    /** The loop. end is how the turn ends in the round last, if it does in one; it does not where a stop is read
        before that round, or none is left. */
    method Rounds(w: World, g: RepeatGuard, forced: string, ghost sessionCalls: nat)
      returns (end: Option<Outcome>, ghost last: nat)
      requires rounds > 0 && Ready(w, g, sessionCalls, 0) && trace == []
      modifies this, g
      ensures end.Some? ==> last < rounds && Ended(w, sessionCalls, last, end.value)
      ensures end.None? ==> last <= rounds && Ready(w, g, sessionCalls, last)
      ensures forall r :: 0 < r < last ==> !w.stopped(r)
      ensures end.None? ==> if last == rounds then w.offered(rounds - 1) == 0 else last > 0 && w.stopped(last)
      ensures end.Some? ==> last == 0 || !w.stopped(last)
    {
      var repaired := false;
      last := 0;
      for round := 0 to rounds
        invariant Ready(w, g, sessionCalls, round) && repaired == Rescued(w, trace)
        invariant round == rounds ==> w.offered(rounds - 1) == 0
        invariant last == round && forall r :: 0 < r < round ==> !w.stopped(r)
      {
        if round > 0 && w.stopped(round) {
          return None, last;
        }
        end, repaired := Round(w, g, round, forced, repaired, sessionCalls);
        if end.Some? {
          return end, last;
        }
        last := round + 1;
      }
      return None, last;
    }

    /** A turn: a model call a round, the tools it asks for, and an answer at the latest once the tools are
        taken away. */
    method Turn(w: World, forced: string) returns (outcome: Outcome, ghost last: nat)
      requires rounds > 0 && PlainThread(messages)
      requires usage == NOTHING && completions == 0 && trace == [] && runs == multiset{} && landedAt == None
      modifies this
      // At most one completion a round and one more, which only a landing makes.
      ensures last <= rounds && |trace| <= rounds + 1
      ensures |trace| == rounds + 1 ==> landedAt == Some(rounds - 1)
      ensures Sound(old(toolCalls)) && forall p :: runs[p] <= REPEAT_RUNS_ALLOWED
      // Every round before the last carried on, and no stop was read before one of them.
      ensures last <= |trace| && Carried(w, trace[..last]) && Replied(w, trace)
      ensures forall r :: 0 < r < last ==> !w.stopped(r)
      // A landing is the turn's last round: nothing is asked of a tool in it and nothing comes after it.
      ensures !outcome.RoundCap? ==> last < rounds && Ended(w, old(toolCalls), last, outcome)
      // A turn ends as one that ran out of rounds exactly when a stop is read or every round carried on, the last
      // of which then offered no tool; it never landed.
      ensures outcome.RoundCap? <==> last == rounds || (last > 0 && w.stopped(last))
      ensures outcome.RoundCap? ==> landedAt == None && |trace| == last
      ensures last == rounds ==> w.offered(rounds - 1) == 0
    {
      PlainIsPaired(messages);
      var g := new RepeatGuard();
      var end;
      end, last := Rounds(w, g, forced, toolCalls);
      outcome := if end.Some? then end.value else RoundCap;
      assert trace[..|trace|] == trace;
    }

    /** Run: a turn, then its usage written down, once, however the turn ended. */
    method Run(w: World, forced: string) returns (outcome: Outcome, recorded: Option<Usage>)
      requires rounds > 0 && PlainThread(messages)
      requires usage == NOTHING && completions == 0 && trace == [] && runs == multiset{} && landedAt == None
      modifies this
      ensures recorded == if ReturnedCount(trace) == 0 then None else Some(Spent(trace))
    {
      ghost var last;
      outcome, last := Turn(w, forced);
      recorded := if completions == 0 then None else Some(usage);
    }
  }

  /** A model that always calls a tool, one always offered, and a stop read before the second round. */
  function Eager(): World {
    World(r => 1, r => r == 1, r => true, 0.0, false,
          (k, sent, offered, choice) => Said(NOTHING, "", [ToolCall("1", "search", "{}")]),
          (k, name) => true, (k, name, args) => "found", text => None, text => text == "",
          (name, args) => name + args, (name, args) => name)
  }

  lemma {:induction false} EagerCarriesOn(trace: seq<Completion>, rounds: nat)
    requires Replied(Eager(), trace) && trace != [] && rounds > 1
    ensures CarriesOn(Eager(), trace[..0], trace[0]) && !MayLand(Eager(), trace[..0], 0, rounds)
  {
    RepliedAt(Eager(), trace, 0);
  }

  /** A turn stopped before its second round, with rounds left and a tool offered in each, ends as one that made
      too many tool calls. */
  method StopReadsAsCap(rounds: nat) returns (outcome: Outcome)
    requires rounds > 1
    ensures outcome.RoundCap?
  {
    var w := Eager();
    var c := new Call(rounds, [Given("question")], 0);
    ghost var last;
    outcome, last := c.Turn(w, "");
    assert w.stopped(1) && !w.stopped(0);
    if c.trace != [] {
      EagerCarriesOn(c.trace, rounds);
    }
  }
}
