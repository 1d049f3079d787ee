/**
  The ReAct loop of pkg/engine/engine.go. The model, the tools, abort requests, cancellation and
  failing saves are arbitrary functions of the step; everything the loop does is recorded: the
  requests it sends, what they cost, the events it pushes, the steps and artifacts it writes.
 */
module Engine {
  import opened Common
  import opened Store
  import opened Decimal
  import opened Artifacts
  import opened Worker
  import opened EngineLog
  import opened EngineEvents
  import Workspace
  import WorkspaceTree

  const MAX_MESSAGES := 64
  const MAX_LENGTH_STOPS := 3

  datatype FinishReason = FinishStop | FinishLength | FinishOther

  /** A model's answer; chunks counts the non-empty tokens it streamed. */
  datatype Reply =
    | ModelError(chunks: nat)
    | Reply(chunks: nat, content: string, calls: seq<ToolCall>, finish: FinishReason, tokens: int, cost: real)

  /** A tool breaks, or says something (an unknown tool and a tool's own error say so in text). */
  datatype ToolOutcome = ToolBroke | ToolSaid(text: string)

  datatype Env = Env(
    promptOk: bool,
    abort: int -> bool,
    cancelled: int -> bool,
    llm: (int, seq<Message>) -> Reply,
    tool: (int, nat) -> ToolOutcome,
    entries: int -> seq<Workspace.Entry>,   // the workspace as the step's snapshot lists it
    memoryFails: int -> bool,
    workspaceFails: int -> bool,
    externalizeFails: int -> bool,          // by the index of the step written
    finalFails: int -> bool)

  datatype Why =
    | PromptRejected | AbortSeen | Cancelled | ModelFailed | TokenCap | CostCap | ToolFailed
    | MemoryLost | WorkspaceLost | FieldsLost | Truncated | Answered | FinalLost | MaxSteps

  datatype Result = Result(status: RunStatus, lastStep: int, why: Why, tokens: int, cost: real)

  // ---------------------------------------------------------------- messages

  /** trimMemoryMessages */
  function Trim(messages: seq<Message>, limit: int): seq<Message> {
    if limit <= 0 || |messages| <= limit then messages
    else
      var keepHead := if messages[0].role.SystemRole? then 1 else 0;
      var tailBudget := limit - keepHead;
      if tailBudget <= 0 then messages[..keepHead]
      else
        var start := |messages| - tailBudget;
        var from := if start < keepHead then keepHead else start;
        messages[..keepHead] + messages[from..]
  }

  /** At most limit messages; a leading system message stays first; the others are the last ones, in order. */
  lemma TrimKeeps(messages: seq<Message>, limit: int)
    requires limit >= 1
    ensures var r := Trim(messages, limit);
      && |r| <= limit && (messages != [] ==> r != [])
      && (|messages| <= limit ==> r == messages)
      && (messages != [] && messages[0].role.SystemRole? ==> r[0] == messages[0] && r[1..] == messages[|messages| - (|r| - 1)..])
      && (messages != [] && !messages[0].role.SystemRole? ==> r == messages[|messages| - |r|..])
      && (|messages| >= limit ==> |r| == limit)
  {
    var r := Trim(messages, limit);
    if |messages| <= limit && messages != [] {
      assert messages[1..] == messages[|messages| - (|messages| - 1)..];
    }
  }

  /** A system message at the head stays there. */
  ghost predicate HeadKept(head: Message, messages: seq<Message>) {
    messages != [] && (head.role.SystemRole? ==> messages[0] == head)
  }

  // ---------------------------------------------------------------- budget

  predicate TokensExceeded(caps: Option<Caps>, tokens: int) {
    caps.Some? && caps.value.maxTokens > 0 && tokens > caps.value.maxTokens
  }

  predicate CostExceeded(caps: Option<Caps>, cost: real) {
    caps.Some? && caps.value.costCap > 0.0 && cost > caps.value.costCap + 0.000000001
  }

  /** checkBudgetExceeded */
  predicate Exceeded(caps: Option<Caps>, tokens: int, cost: real) {
    TokensExceeded(caps, tokens) || CostExceeded(caps, cost)
  }

  function Tokens(spent: seq<(int, real)>): int {
    if spent == [] then 0 else Tokens(spent[..|spent| - 1]) + spent[|spent| - 1].0
  }

  function Cost(spent: seq<(int, real)>): real {
    if spent == [] then 0.0 else Cost(spent[..|spent| - 1]) + spent[|spent| - 1].1
  }

  // ---------------------------------------------------------------- the conversation

  datatype Chat = Chat(
    messages: seq<Message>,
    sent: seq<seq<Message>>,       // the requests made so far
    spent: seq<(int, real)>,       // what the answered ones cost
    tokens: int,
    cost: real,
    replies: seq<Reply>,           // the answers whose step was written
    lengthStops: nat)

  function Ask(chat: Chat): Chat {
    var trimmed := Trim(chat.messages, MAX_MESSAGES);
    chat.(messages := trimmed, sent := chat.sent + [trimmed])
  }

  function Charge(chat: Chat, tokens: int, cost: real): Chat {
    chat.(spent := chat.spent + [(tokens, cost)], tokens := chat.tokens + tokens, cost := chat.cost + cost)
  }

  function Say(chat: Chat, m: Message): Chat { chat.(messages := chat.messages + [m]) }

  /** Every request was made within the caps, had at most 64 messages, and kept the head. */
  ghost predicate Requests(caps: Option<Caps>, head: Message, sent: seq<seq<Message>>, spent: seq<(int, real)>) {
    forall i :: 0 <= i < |sent| ==>
      && i <= |spent| && 1 <= |sent[i]| <= MAX_MESSAGES && HeadKept(head, sent[i])
      && !Exceeded(caps, Tokens(spent[..i]), Cost(spent[..i]))
  }

  ghost predicate ChatOk(caps: Option<Caps>, head: Message, chat: Chat) {
    && Requests(caps, head, chat.sent, chat.spent)
    && HeadKept(head, chat.messages)
    && chat.tokens == Tokens(chat.spent) && chat.cost == Cost(chat.spent)
  }

  /** Between two steps: every request has been answered and the caps are not exceeded. */
  ghost predicate ChatReady(caps: Option<Caps>, head: Message, chat: Chat) {
    ChatOk(caps, head, chat) && |chat.sent| == |chat.spent| && !Exceeded(caps, chat.tokens, chat.cost)
  }

  lemma AskKeeps(caps: Option<Caps>, head: Message, chat: Chat)
    requires ChatReady(caps, head, chat)
    ensures ChatOk(caps, head, Ask(chat)) && |Ask(chat).sent| == |chat.sent| + 1 && Ask(chat).spent == chat.spent
  {
    hide Trim, Exceeded, Tokens, Cost;
    TrimKeeps(chat.messages, MAX_MESSAGES);
    assert chat.spent[..|chat.spent|] == chat.spent;
  }

  lemma ChargeKeeps(caps: Option<Caps>, head: Message, chat: Chat, tokens: int, cost: real)
    requires ChatOk(caps, head, chat) && |chat.sent| == |chat.spent| + 1
    ensures ChatOk(caps, head, Charge(chat, tokens, cost)) && |Charge(chat, tokens, cost).spent| == |chat.sent|
  {
    var more := Charge(chat, tokens, cost);
    assert more.spent[..|chat.spent|] == chat.spent;
    forall i | 0 <= i < |chat.sent| ensures more.spent[..i] == chat.spent[..i] {
    }
    hide Exceeded;
  }

  lemma SayKeeps(caps: Option<Caps>, head: Message, chat: Chat, m: Message)
    requires ChatOk(caps, head, chat)
    ensures ChatOk(caps, head, Say(chat, m))
  {
    var more := Say(chat, m);
    assert more.messages[0] == chat.messages[0];
  }

  lemma ChatSays(caps: Option<Caps>, head: Message, chat: Chat)
    requires ChatOk(caps, head, chat)
    ensures chat.messages != []
  {
  }

  // ---------------------------------------------------------------- how a run ends

  function StatusOf(why: Why): RunStatus {
    match why
    case Answered => RunSucceeded
    case AbortSeen => RunAborted
    case _ => RunFailed
  }

  /** Ends in which the step the result names could not be saved. */
  predicate Lost(why: Why) { why.MemoryLost? || why.WorkspaceLost? || why.FieldsLost? || why.FinalLost? }

  /** Ends that write an error step, which does not move the run's last step. */
  predicate ErrorStep(why: Why) { why.ModelFailed? || why.TokenCap? || why.CostCap? || why.ToolFailed? }

  function ErrorCode(why: Why): string {
    match why
    case ModelFailed => "LLM_ERROR"
    case TokenCap => "TOKEN_CAP_EXCEEDED"
    case CostCap => "COST_CAP_EXCEEDED"
    case _ => "TOOL_EXEC_ERROR"
  }

  /** The event that announces the end, if any does. */
  function Announced(why: Why): Option<EventKind> {
    if why.Answered? || why.AbortSeen? then Some(CompleteEvent)
    else if ErrorStep(why) || why.Truncated? || why.MaxSteps? then Some(ErrorEvent)
    else None
  }

  ghost predicate EventsEnd(ev: Events, pusher: bool, why: Why) {
    && Numbered(ev, pusher)
    && match Announced(why)
       case None => Open(ev, pusher)
       case Some(kind) => pusher ==> ev.log != [] && ev.log[|ev.log| - 1].kind == kind
  }

  /** The run's last step is the result's, or one behind after an error step or a lost one. */
  ghost predicate ReachedEnd(actions: seq<Action>, start: int, res: Result) {
    var at := if ErrorStep(res.why) || Lost(res.why) then res.lastStep - 1 else res.lastStep;
    Reached(actions) == if at >= start then Some(at) else None
  }

  ghost predicate ResultOk(job: Job, chat: Chat, res: Result) {
    && res.tokens == chat.tokens && res.cost == chat.cost && res.status == StatusOf(res.why)
    && (res.why.TokenCap? || res.why.CostCap? <==> Exceeded(job.caps, chat.tokens, chat.cost))
  }

  /** The steps written are exactly start..lastStep, or start..lastStep-1 if the last one was lost. */
  ghost predicate DiskEnd(job: Job, start: int, disk: Disk, res: Result) {
    DiskOk(job, start, if Lost(res.why) then res.lastStep else res.lastStep + 1, disk) && ReachedEnd(disk.actions, start, res)
  }

  ghost predicate Ended(job: Job, head: Message, start: int, chat: Chat, ev: Events, disk: Disk, res: Result) {
    && ChatOk(job.caps, head, chat) && EventsEnd(ev, job.pusher, res.why) && ResultOk(job, chat, res)
    && DiskEnd(job, start, disk, res) && RepliesEnd(chat.replies, res.why)
  }

  /** Before step idx: everything up to idx - 1 is written and reached. */
  ghost predicate Between(job: Job, head: Message, start: int, idx: int, chat: Chat, ev: Events, disk: Disk) {
    && ChatReady(job.caps, head, chat) && |chat.sent| == |chat.replies| == idx - start && GoingOn(chat)
    && Open(ev, job.pusher)
    && DiskOk(job, start, idx, disk) && Below(disk.log, idx)
    && Reached(disk.actions) == if idx > start then Some(idx - 1) else None
  }

  /** No tool calls and a finish reason of "stop": the final answer. */
  predicate FinalReply(r: Reply) { r.Reply? && r.calls == [] && r.finish.FinishStop? }

  /** No tool calls and a finish reason of "length": cut off. */
  predicate CutReply(r: Reply) { r.Reply? && r.calls == [] && r.finish.FinishLength? }

  /** How many answers in a row, up to the last one, were cut off. */
  function Trailing(replies: seq<Reply>): (n: nat)
    ensures n <= |replies|
  {
    if replies == [] || !CutReply(replies[|replies| - 1]) then 0 else 1 + Trailing(replies[..|replies| - 1])
  }

  ghost predicate NoneFinal(replies: seq<Reply>) { forall i :: 0 <= i < |replies| ==> !FinalReply(replies[i]) }

  /** No written answer so far was final, and fewer than three in a row were cut off. */
  ghost predicate GoingOn(chat: Chat) {
    NoneFinal(chat.replies) && chat.lengthStops == Trailing(chat.replies) < MAX_LENGTH_STOPS
  }

  /** The run succeeds exactly on the first final answer, and gives up exactly on the third cut-off answer in a row. */
  ghost predicate RepliesEnd(replies: seq<Reply>, why: Why) {
    var n := |replies|;
    && (n > 0 ==> NoneFinal(replies[..n - 1]))
    && (why.Answered? || why.FinalLost? <==> n > 0 && FinalReply(replies[n - 1]))
    && (why.Truncated? <==> Trailing(replies) == MAX_LENGTH_STOPS)
    && Trailing(replies) <= MAX_LENGTH_STOPS
  }

  lemma RepliesStep(replies: seq<Reply>, r: Reply)
    ensures Trailing(replies + [r]) == if CutReply(r) then 1 + Trailing(replies) else 0
    ensures (replies + [r])[..|replies|] == replies
  {
  }

  lemma GoingOnEnd(chat: Chat, why: Why)
    requires GoingOn(chat) && !why.Answered? && !why.FinalLost? && !why.Truncated?
    ensures RepliesEnd(chat.replies, why)
  {
    if chat.replies != [] {
      assert chat.replies[|chat.replies| - 1] in chat.replies;
    }
  }

  // ---------------------------------------------------------------- one step

  function Outcome(why: Why, lastStep: int, chat: Chat): Result {
    Result(StatusOf(why), lastStep, why, chat.tokens, chat.cost)
  }

  /** Some tool of the step breaks. */
  predicate Broke(env: Env, idx: int, n: nat) { exists i :: 0 <= i < n && env.tool(idx, i).ToolBroke? }

  /** The memory after a step: what was asked, the answer with its calls, and a result for every call. */
  function Said(env: Env, idx: int, asked: seq<Message>, reply: Reply): seq<Message> {
    if reply.ModelError? then asked
    else
      var calls := WithIds(idx, reply.calls);
      asked + [Message(AssistantRole, reply.content, "", calls)] + ToolMessages(env, idx, calls, |calls|)
  }

  /** The messages the next step starts from: a cut-off answer is asked to continue. */
  function Told(env: Env, idx: int, asked: seq<Message>, reply: Reply): seq<Message> {
    if CutReply(reply) then Said(env, idx, asked, reply) + [Message(UserRole, CONTINUE, "", [])] else Said(env, idx, asked, reply)
  }

  /** Why the run ends once the answer is within budget, if it does. */
  function ActEnd(env: Env, idx: int, reply: Reply, lengthStops: nat): (end: Option<Why>)
    requires reply.Reply?
    ensures end.Some? ==> end.value.ToolFailed? || Lost(end.value) || end.value.Truncated? || end.value.Answered?
  {
    if Broke(env, idx, |reply.calls|) then Some(ToolFailed)
    else if env.memoryFails(idx) then Some(MemoryLost)
    else if env.workspaceFails(idx) then Some(WorkspaceLost)
    else if env.externalizeFails(idx) then Some(FieldsLost)
    else if CutReply(reply) then if lengthStops + 1 >= MAX_LENGTH_STOPS then Some(Truncated) else None
    else if FinalReply(reply) then Some(if env.finalFails(idx) then FinalLost else Answered)
    else None
  }

  /** Why the run ends in this step, if it does. */
  function TurnEnd(job: Job, env: Env, idx: int, messages: seq<Message>, tokens: int, cost: real, lengthStops: nat): Option<Why> {
    if env.abort(idx) then Some(AbortSeen)
    else if env.cancelled(idx) then Some(Cancelled)
    else
      var reply := env.llm(idx, Trim(messages, MAX_MESSAGES));
      if reply.ModelError? then Some(ModelFailed)
      else
        var over := Budget(job.caps, tokens + reply.tokens, cost + reply.cost);
        if over.Some? then over else ActEnd(env, idx, reply, lengthStops)
  }

  /** The step was written. */
  predicate StepDone(end: Option<Why>) { end == None || end.value.Truncated? || end.value.Answered? || end.value.FinalLost? }

  /** What a step leaves in the record of checkpoints. */
  function SavedAfter(
      job: Job, env: Env, idx: int, saved: map<int, Saved>, messages: seq<Message>,
      end: Option<Why>): map<int, Saved> {
    var what := Saved(Memory(job.run, idx, messages), env.entries(idx));
    if !StepDone(end) then saved
    else if end == Some(Answered) then saved[idx := what][idx + 1 := what]
    else saved[idx := what]
  }

  /** The two saves of a step. */
  function StepSaves(job: Job, env: Env, idx: int, messages: seq<Message>): seq<Effect> {
    [SaveBlob(MemKey(job, idx), MemoryBlob(Memory(job.run, idx, messages))), SaveBlob(TreeKey(job, idx), TreeBlob(env.entries(idx)))]
  }

  /** A step record and the move of the run's last step to it. */
  function StepPut(idx: int, kind: StepKind, code: string, cp: Option<Checkpoint>): seq<Effect> {
    [Call(Put(idx, Step(kind, true, code, cp))), Call(Advance(idx))]
  }

  /** The calls of a step, by how it ends. */
  function TurnWrites(job: Job, env: Env, idx: int, messages: seq<Message>, reply: Reply, end: Option<Why>): seq<Effect> {
    if StepDone(end) then
      var cp := Some(CheckpointOf(job, idx, messages, env.entries(idx)));
      StepSaves(job, env, idx, messages)
      + StepPut(idx, if reply.Reply? && |reply.calls| > 0 then ToolStep else LlmStep, "", cp)
      + if end == Some(Answered) then StepPut(idx + 1, FinalStep, "", cp) else []
    else if end == Some(AbortSeen) then StepPut(idx, FinalStep, "ABORTED", None)
    else if ErrorStep(end.value) then [Call(Put(idx, Step(LlmStep, false, ErrorCode(end.value), None)))]
    else if end == Some(WorkspaceLost) then StepSaves(job, env, idx, messages)[..1]
    else if end == Some(FieldsLost) then StepSaves(job, env, idx, messages)
    else []
  }

  ghost predicate ActIs(
      job: Job, env: Env, idx: int, reply: Reply, chat0: Chat, saved0: map<int, Saved>, chat: Chat,
      saved: map<int, Saved>, end: Option<Why>)
    requires reply.Reply?
  {
    && end == ActEnd(env, idx, reply, chat0.lengthStops)
    && chat.sent == chat0.sent && chat.spent == chat0.spent
    && chat.replies == (if StepDone(end) then chat0.replies + [reply] else chat0.replies)
    && saved == SavedAfter(job, env, idx, saved0, Said(env, idx, chat0.messages, reply), end)
    && (end == None ==> chat.messages == Told(env, idx, chat0.messages, reply))
  }

  /** Everything a turn does to the conversation and the checkpoints, and why it ends the run if it does. */
  ghost predicate TurnIs(
      job: Job, env: Env, idx: int, chat0: Chat, saved0: map<int, Saved>, chat: Chat, saved: map<int, Saved>,
      end: Option<Why>) {
    var asked := Trim(chat0.messages, MAX_MESSAGES);
    var reply := env.llm(idx, asked);
    && end == TurnEnd(job, env, idx, chat0.messages, chat0.tokens, chat0.cost, chat0.lengthStops)
    && (end == Some(AbortSeen) || end == Some(Cancelled) ==> chat == chat0 && saved == saved0)
    && (end != Some(AbortSeen) && end != Some(Cancelled) ==>
         && chat.sent == chat0.sent + [asked]
         && (end == Some(ModelFailed) <==> reply.ModelError?)
         && chat.spent == (if reply.ModelError? then chat0.spent else chat0.spent + [(reply.tokens, reply.cost)])
         && chat.replies == (if StepDone(end) then chat0.replies + [reply] else chat0.replies)
         && saved == SavedAfter(job, env, idx, saved0, Said(env, idx, asked, reply), end))
    && (end == None ==> chat.messages == Told(env, idx, asked, reply))
  }

  function WhyOf(res: Option<Result>): Option<Why> { if res.Some? then Some(res.value.why) else None }

  // ---------------------------------------------------------------- the events of a step

  /** The step begins and the model streams its tokens. */
  function AskScript(reply: Reply): seq<EventKind> { [StepStart] + Repeat(TokenChunk, reply.chunks) }

  /** Every call is announced and answered. */
  function ToolScript(n: nat): seq<EventKind> { if n == 0 then [] else ToolScript(n - 1) + [ToolCalled, ToolResult] }

  /** A step that is written. */
  function StepScript(reply: Reply): seq<EventKind>
    requires reply.Reply?
  {
    AskScript(reply) + ToolScript(|reply.calls|) + [StepEnd]
  }

  /** The first call from this one on whose tool breaks, or their number. */
  function FirstBroken(env: Env, idx: int, from: nat, n: nat): (i: nat)
    requires from <= n
    ensures from <= i <= n
    decreases n - from
  {
    if from == n || env.tool(idx, from).ToolBroke? then from else FirstBroken(env, idx, from + 1, n)
  }

  /** What a run pushes after its written steps: how far the step it broke off came, and the event that announces the end. */
  function LastScript(env: Env, idx: int, reply: Reply, why: Why): seq<EventKind> {
    match why
    case AbortSeen => [CompleteEvent]
    case Answered => [CompleteEvent]
    case MaxSteps => [ErrorEvent]
    case Truncated => [ErrorEvent]
    case ModelFailed => AskScript(reply) + [ErrorEvent]
    case TokenCap => AskScript(reply) + [ErrorEvent]
    case CostCap => AskScript(reply) + [ErrorEvent]
    case ToolFailed =>
      if reply.ModelError? then []
      else AskScript(reply) + ToolScript(FirstBroken(env, idx, 0, |reply.calls|)) + [ToolCalled] + [ErrorEvent]
    case MemoryLost => LostScript(reply)
    case WorkspaceLost => LostScript(reply)
    case FieldsLost => LostScript(reply)
    case _ => []
  }

  function LostScript(reply: Reply): seq<EventKind> {
    if reply.ModelError? then [] else AskScript(reply) + ToolScript(|reply.calls|)
  }

  /** What a turn pushes. */
  function TurnScript(env: Env, idx: int, reply: Reply, end: Option<Why>): seq<EventKind> {
    (if StepDone(end) && reply.Reply? then StepScript(reply) else [])
    + if end.Some? then LastScript(env, idx, reply, end.value) else []
  }

  /** What a turn pushes once the answer is within budget. */
  function ActScript(env: Env, idx: int, reply: Reply, end: Option<Why>): seq<EventKind>
    requires reply.Reply?
  {
    if end == Some(ToolFailed) then ToolScript(FirstBroken(env, idx, 0, |reply.calls|)) + [ToolCalled] + [ErrorEvent]
    else if !StepDone(end) then ToolScript(|reply.calls|)
    else ToolScript(|reply.calls|) + [StepEnd] + DecideScript(end)
  }

  function DecideScript(end: Option<Why>): seq<EventKind> {
    if end == Some(Truncated) then [ErrorEvent] else if end == Some(Answered) then [CompleteEvent] else []
  }

  lemma ActScriptIs(env: Env, idx: int, reply: Reply, end: Option<Why>)
    requires reply.Reply?
    requires end.Some? ==> end.value.ToolFailed? || Lost(end.value) || end.value.Truncated? || end.value.Answered?
    ensures AskScript(reply) + ActScript(env, idx, reply, end) == TurnScript(env, idx, reply, end)
  {
    hide AskScript, ToolScript, FirstBroken;
    var ask, tools := AskScript(reply), ToolScript(|reply.calls|);
    assert StepDone(end) ==> ask + (tools + [StepEnd] + DecideScript(end)) == ask + tools + [StepEnd] + DecideScript(end);
    assert end == Some(ToolFailed) ==>
      var some := ToolScript(FirstBroken(env, idx, 0, |reply.calls|));
      ask + (some + [ToolCalled] + [ErrorEvent]) == ask + some + [ToolCalled] + [ErrorEvent];
  }

  /** Ask the model and charge what it cost. */
  method Consult(job: Job, env: Env, idx: int, chat0: Chat, ev0: Events, ghost head: Message)
    returns (chat: Chat, ev: Events, reply: Reply, stop: Option<Why>)
    requires ChatReady(job.caps, head, chat0) && Open(ev0, job.pusher)
    ensures ChatOk(job.caps, head, chat) && Open(ev, job.pusher) && |chat.sent| == |chat0.sent| + 1
    ensures stop == None ==> reply.Reply? && ChatReady(job.caps, head, chat)
    ensures chat.replies == chat0.replies && chat.lengthStops == chat0.lengthStops
    ensures chat.messages == Trim(chat0.messages, MAX_MESSAGES) && reply == env.llm(idx, chat.messages)
    ensures chat.sent == chat0.sent + [chat.messages]
    ensures chat.spent == (if reply.ModelError? then chat0.spent else chat0.spent + [(reply.tokens, reply.cost)])
    ensures stop == if reply.ModelError? then Some(ModelFailed) else Budget(job.caps, chat0.tokens + reply.tokens, chat0.cost + reply.cost)
    ensures stop.Some? ==> ErrorStep(stop.value)
    ensures stop == Some(ModelFailed) ==> !Exceeded(job.caps, chat.tokens, chat.cost)
    ensures stop == Some(TokenCap) || stop == Some(CostCap) ==> Exceeded(job.caps, chat.tokens, chat.cost)
    ensures stop != Some(ToolFailed) && ev == PushAll(ev0, job.pusher, AskScript(reply))
  {
    ev := Push(ev0, job.pusher, StepStart);
    PushKeeps(ev0, job.pusher, StepStart);
    PushOne(ev0, job.pusher, StepStart);
    AskKeeps(job.caps, head, chat0);
    hide Exceeded, Trim, Tokens, Cost, Numbered;
    chat := Ask(chat0);
    reply := env.llm(idx, chat.messages);
    PushManyKeeps(ev, job.pusher, TokenChunk, reply.chunks);
    PushManyIs(ev, job.pusher, TokenChunk, reply.chunks);
    PushJoin(ev0, job.pusher, [StepStart], Repeat(TokenChunk, reply.chunks));
    ev := PushMany(ev, job.pusher, TokenChunk, reply.chunks);
    if reply.ModelError? {
      return chat, ev, reply, Some(ModelFailed);
    }
    ChargeKeeps(job.caps, head, chat, reply.tokens, reply.cost);
    chat := Charge(chat, reply.tokens, reply.cost);
    stop := Budget(job.caps, chat.tokens, chat.cost);
  }

  function Budget(caps: Option<Caps>, tokens: int, cost: real): (why: Option<Why>)
    ensures why.Some? <==> Exceeded(caps, tokens, cost)
    ensures why.Some? ==> why.value == if TokensExceeded(caps, tokens) then TokenCap else CostCap
  {
    if TokensExceeded(caps, tokens) then Some(TokenCap) else if CostExceeded(caps, cost) then Some(CostCap) else None
  }

  /** Calls without an id get one from their place. */
  function WithIds(idx: int, calls: seq<ToolCall>): (r: seq<ToolCall>)
    ensures |r| == |calls|
  {
    seq(|calls|, i requires 0 <= i < |calls| =>
      if calls[i].id == "" then calls[i].(id := "call_" + Itoa(idx) + "_" + Itoa(i)) else calls[i])
  }

  function ToolMessages(env: Env, idx: int, calls: seq<ToolCall>, n: nat): seq<Message>
    requires n <= |calls|
  {
    if n == 0 then []
    else
      var text := match env.tool(idx, n - 1) { case ToolSaid(text) => text case ToolBroke => "" };
      ToolMessages(env, idx, calls, n - 1) + [Message(ToolRole, text, calls[n - 1].id, [])]
  }

  /** Run the tools in order, answering each call under its id, until one breaks. */
  method UseTools(job: Job, env: Env, idx: int, calls: seq<ToolCall>, chat0: Chat, ev0: Events, ghost head: Message)
    returns (chat: Chat, ev: Events, broke: bool)
    requires ChatOk(job.caps, head, chat0) && Open(ev0, job.pusher)
    ensures ChatOk(job.caps, head, chat) && Open(ev, job.pusher)
    ensures chat == chat0.(messages := chat.messages)
    ensures broke <==> Broke(env, idx, |calls|)
    ensures !broke ==> chat.messages == chat0.messages + ToolMessages(env, idx, calls, |calls|)
    ensures !broke ==> ev == PushAll(ev0, job.pusher, ToolScript(|calls|))
    ensures broke ==> ev == PushAll(ev0, job.pusher, ToolScript(FirstBroken(env, idx, 0, |calls|)) + [ToolCalled])
  {
    hide ChatOk, Numbered, Open, PushAll, ToolScript, Push, ToolMessages, FirstBroken;
    chat, ev, broke := chat0, ev0, false;
    NoTools(env, idx, calls, ev0, job.pusher);
    for i := 0 to |calls|
      invariant ChatOk(job.caps, head, chat) && Open(ev, job.pusher) && !broke
      invariant chat == chat0.(messages := chat0.messages + ToolMessages(env, idx, calls, i))
      invariant forall j :: 0 <= j < i ==> !env.tool(idx, j).ToolBroke?
      invariant FirstBroken(env, idx, 0, |calls|) == FirstBroken(env, idx, i, |calls|)
      invariant ev == PushAll(ev0, job.pusher, ToolScript(i))
    {
      ToolPushed(ev0, job.pusher, i);
      NextTool(env, idx, calls, i);
      PushKeeps(ev, job.pusher, ToolCalled);
      ev := Push(ev, job.pusher, ToolCalled);
      var out := env.tool(idx, i);
      if out.ToolBroke? {
        return chat, ev, true;
      }
      PushKeeps(ev, job.pusher, ToolResult);
      ev := Push(ev, job.pusher, ToolResult);
      var m := Message(ToolRole, out.text, calls[i].id, []);
      SayKeeps(job.caps, head, chat, m);
      chat := Say(chat, m);
    }
  }

  lemma NoTools(env: Env, idx: int, calls: seq<ToolCall>, ev: Events, pusher: bool)
    ensures PushAll(ev, pusher, ToolScript(0)) == ev && ToolMessages(env, idx, calls, 0) == []
  {
  }

  lemma NextTool(env: Env, idx: int, calls: seq<ToolCall>, i: nat)
    requires i < |calls|
    ensures match env.tool(idx, i)
      case ToolBroke => FirstBroken(env, idx, i, |calls|) == i
      case ToolSaid(text) =>
        && FirstBroken(env, idx, i, |calls|) == FirstBroken(env, idx, i + 1, |calls|)
        && ToolMessages(env, idx, calls, i + 1) == ToolMessages(env, idx, calls, i) + [Message(ToolRole, text, calls[i].id, [])]
  {
  }

  lemma ToolPushed(ev: Events, pusher: bool, i: nat)
    ensures var before := PushAll(ev, pusher, ToolScript(i));
      && Push(before, pusher, ToolCalled) == PushAll(ev, pusher, ToolScript(i) + [ToolCalled])
      && Push(Push(before, pusher, ToolCalled), pusher, ToolResult) == PushAll(ev, pusher, ToolScript(i + 1))
  {
    var before := PushAll(ev, pusher, ToolScript(i));
    PushOne(before, pusher, ToolCalled);
    PushJoin(ev, pusher, ToolScript(i), [ToolCalled]);
    PushOne(Push(before, pusher, ToolCalled), pusher, ToolResult);
    PushJoin(ev, pusher, ToolScript(i) + [ToolCalled], [ToolResult]);
    assert ToolScript(i) + [ToolCalled] + [ToolResult] == ToolScript(i + 1);
  }

  lemma NewKeys(log: seq<Effect>, job: Job, idx: int, blob: Blob)
    requires Below(log, idx)
    ensures !SavedIn(log, MemKey(job, idx)) && !SavedIn(log + [SaveBlob(MemKey(job, idx), blob)], TreeKey(job, idx))
  {
  }

  lemma CommittedBelow(log: seq<Effect>, more: seq<Effect>, idx: int)
    requires Below(log, idx) && forall i :: 0 <= i < |more| && more[i].SaveBlob? ==> more[i].key.step == idx
    ensures Below(log + more, idx + 1)
  {
  }

  /** Save memory and workspace, then write the step that refers to them. */
  method Commit(job: Job, env: Env, idx: int, kind: StepKind, messages: seq<Message>, disk0: Disk, ghost start: int)
    returns (disk: Disk, cp: Checkpoint, stop: Option<Why>)
    requires DiskOk(job, start, idx, disk0) && Below(disk0.log, idx) && messages != []
    ensures stop == if env.memoryFails(idx) then Some(MemoryLost) else if env.workspaceFails(idx) then Some(WorkspaceLost)
                    else if env.externalizeFails(idx) then Some(FieldsLost) else None
    ensures disk.saved ==
      if stop == None then disk0.saved[idx := Saved(Memory(job.run, idx, messages), env.entries(idx))] else disk0.saved
    ensures cp == CheckpointOf(job, idx, messages, env.entries(idx))
    ensures disk.log == disk0.log +
      (if stop == None then StepSaves(job, env, idx, messages) + StepPut(idx, kind, "", Some(cp))
       else if stop == Some(MemoryLost) then [] else if stop == Some(WorkspaceLost) then StepSaves(job, env, idx, messages)[..1]
       else StepSaves(job, env, idx, messages))
    ensures stop.Some? ==>
      && Lost(stop.value) && !stop.value.FinalLost?
      && DiskOk(job, start, idx, disk) && Reached(disk.actions) == Reached(disk0.actions)
    ensures stop == None ==>
      && DiskOk(job, start, idx + 1, disk) && Below(disk.log, idx + 1) && Reached(disk.actions) == Some(idx)
      && Backs(job.codec, disk.log, cp, Saved(Memory(job.run, idx, messages), env.entries(idx)))
  {
    hide DiskOk, Backs, Reached, Below, SavedIn, MemKey, TreeKey;
    disk := disk0;
    cp := CheckpointOf(job, idx, messages, env.entries(idx));
    var memory, tree := MemoryBlob(Memory(job.run, idx, messages)), TreeBlob(env.entries(idx));
    ghost var saves := StepSaves(job, env, idx, messages);
    KeysOf(job, idx);
    NewKeys(disk.log, job, idx, memory);
    if env.memoryFails(idx) {
      return disk, cp, Some(MemoryLost);
    }
    SaveKeeps(job, start, idx, disk, MemKey(job, idx), memory);
    disk := SaveAt(disk, MemKey(job, idx), memory);
    if env.workspaceFails(idx) {
      return disk, cp, Some(WorkspaceLost);
    }
    SaveKeeps(job, start, idx, disk, TreeKey(job, idx), tree);
    disk := SaveAt(disk, TreeKey(job, idx), tree);
    assert disk.log == disk0.log + saves;
    if env.externalizeFails(idx) {
      return disk, cp, Some(FieldsLost);
    }
    var what := Saved(Memory(job.run, idx, messages), env.entries(idx));
    SavedBacks(job, idx, disk.log, messages, env.entries(idx));
    BacksLater(job.codec, disk.log, StepPut(idx, kind, "", Some(cp)), cp, what);
    RecordKeeps(job, start, idx, disk, kind, cp, what);
    disk := Record(disk, idx, kind, cp, what);
    ReachKeeps(job, start, idx + 1, disk, idx);
    disk := Reach(disk, idx);
    assert disk.log == disk0.log + saves + StepPut(idx, kind, "", Some(cp));
    assert disk.log == disk0.log + (saves + StepPut(idx, kind, "", Some(cp)));
    CommittedBelow(disk0.log, saves + StepPut(idx, kind, "", Some(cp)), idx);
    stop := None;
  }

  lemma KeysOf(job: Job, idx: int)
    ensures MemKey(job, idx).run == TreeKey(job, idx).run == job.run
    ensures MemKey(job, idx).step == TreeKey(job, idx).step == idx
  {
  }

  /** The final answer's own step, which shares the checkpoint of the step before it. */
  method Finish(job: Job, env: Env, idx: int, cp: Checkpoint, what: Saved, disk0: Disk, ghost start: int)
    returns (disk: Disk, why: Why)
    requires DiskOk(job, start, idx + 1, disk0) && Reached(disk0.actions) == Some(idx)
    requires Backs(job.codec, disk0.log, cp, what) && what.memory.messages != []
    ensures why == if env.finalFails(idx) then FinalLost else Answered
    ensures disk.saved == if why.Answered? then disk0.saved[idx + 1 := what] else disk0.saved
    ensures disk.log == disk0.log + if why.Answered? then StepPut(idx + 1, FinalStep, "", Some(cp)) else []
    ensures DiskOk(job, start, if why.FinalLost? then idx + 1 else idx + 2, disk)
    ensures Reached(disk.actions) == Some(if why.FinalLost? then idx else idx + 1)
  {
    hide DiskOk, Reached;
    disk := disk0;
    if env.finalFails(idx) {
      return disk, FinalLost;
    }
    RecordKeeps(job, start, idx + 1, disk, FinalStep, cp, what);
    disk := Record(disk, idx + 1, FinalStep, cp, what);
    ReachKeeps(job, start, idx + 2, disk, idx + 1);
    disk := Reach(disk, idx + 1);
    assert disk.log == disk0.log + StepPut(idx + 1, FinalStep, "", Some(cp));
    why := Answered;
  }

  /** An error step, and the event that reports it. */
  method FailStep(job: Job, idx: int, why: Why, chat: Chat, ev0: Events, disk0: Disk, ghost head: Message, ghost start: int)
    returns (ev: Events, disk: Disk, res: Result)
    requires ErrorStep(why) && ChatOk(job.caps, head, chat) && Open(ev0, job.pusher) && DiskOk(job, start, idx, disk0)
    requires why.TokenCap? || why.CostCap? <==> Exceeded(job.caps, chat.tokens, chat.cost)
    requires Reached(disk0.actions) == (if idx > start then Some(idx - 1) else None) && GoingOn(chat)
    ensures Ended(job, head, start, chat, ev, disk, res) && res.why == why && disk.saved == disk0.saved
    ensures disk.log == disk0.log + [Call(Put(idx, Step(LlmStep, false, ErrorCode(why), None)))]
    ensures ev == Push(ev0, job.pusher, ErrorEvent)
  {
    hide DiskOk, ChatOk, Exceeded, Reached, RepliesEnd, GoingOn, Numbered, Open, NoneFinal, Trailing;
    GoingOnEnd(chat, why);
    NoteKeeps(job, start, idx, disk0, LlmStep, false, ErrorCode(why));
    disk := Note(disk0, idx, LlmStep, false, ErrorCode(why));
    ClosingPush(ev0, job.pusher, ErrorEvent);
    ev := Push(ev0, job.pusher, ErrorEvent);
    res := Outcome(why, idx, chat);
  }

  method Guard(job: Job, env: Env, idx: int, chat: Chat, ev0: Events, disk0: Disk, ghost head: Message, ghost start: int)
    returns (ev: Events, disk: Disk, res: Option<Result>)
    requires Between(job, head, start, idx, chat, ev0, disk0)
    ensures res == None ==> ev == ev0 && disk == disk0
    ensures res.Some? ==> Ended(job, head, start, chat, ev, disk, res.value)
    ensures WhyOf(res) == (if env.abort(idx) then Some(AbortSeen) else if env.cancelled(idx) then Some(Cancelled) else None)
    ensures disk.saved == disk0.saved
    ensures disk.log == disk0.log + if env.abort(idx) then StepPut(idx, FinalStep, "ABORTED", None) else []
    ensures ev == if env.abort(idx) then Push(ev0, job.pusher, CompleteEvent) else ev0
  {
    hide DiskOk, Reached, ChatOk, Exceeded, RepliesEnd, GoingOn;
    ev, disk, res := ev0, disk0, None;
    if env.abort(idx) {
      GoingOnEnd(chat, AbortSeen);
      NoteKeeps(job, start, idx, disk, FinalStep, true, "ABORTED");
      disk := Note(disk, idx, FinalStep, true, "ABORTED");
      ReachKeeps(job, start, idx + 1, disk, idx);
      disk := Reach(disk, idx);
      assert disk.log == disk0.log + StepPut(idx, FinalStep, "ABORTED", None);
      PushKeeps(ev, job.pusher, CompleteEvent);
      ev := Push(ev, job.pusher, CompleteEvent);
      return ev, disk, Some(Outcome(AbortSeen, idx, chat));
    }
    if env.cancelled(idx) {
      GoingOnEnd(chat, Cancelled);
      return ev, disk, Some(Outcome(Cancelled, idx - 1, chat));
    }
  }

  /** One turn of the loop: guard, model, tools, checkpoint, and what the answer calls for. */
  method Turn(job: Job, env: Env, idx: int, chat0: Chat, ev0: Events, disk0: Disk, ghost head: Message, ghost start: int)
    returns (chat: Chat, ev: Events, disk: Disk, res: Option<Result>)
    requires Between(job, head, start, idx, chat0, ev0, disk0)
    ensures res == None ==> Between(job, head, start, idx + 1, chat, ev, disk)
    ensures res.Some? ==> Ended(job, head, start, chat, ev, disk, res.value) && |chat.sent| <= idx + 1 - start
    ensures TurnIs(job, env, idx, chat0, disk0.saved, chat, disk.saved, WhyOf(res))
    ensures var asked := Trim(chat0.messages, MAX_MESSAGES); var reply := env.llm(idx, asked);
      && disk.log == disk0.log + TurnWrites(job, env, idx, Said(env, idx, asked, reply), reply, WhyOf(res))
      && ev == PushAll(ev0, job.pusher, TurnScript(env, idx, reply, WhyOf(res)))
  {
    hide DiskOk, Reached, ChatOk, Requests, Exceeded, Numbered, Open, Backs, Below, RepliesEnd, NoneFinal, Trailing,
         Trim, Said, Told, ActEnd,
         Ended, CheckpointOf, StepSaves, Push, PushAll, AskScript, ActScript, TurnScript;
    chat := chat0;
    NothingPushed(ev0, job.pusher);
    ShortScripts(env, idx);
    ev, disk, res := Guard(job, env, idx, chat, ev0, disk0, head, start);
    if res.Some? {
      return;
    }
    var reply, stop, fail;
    chat, ev, reply, stop := Consult(job, env, idx, chat, ev, head);
    if stop.Some? {
      PushedAfter(ev0, job.pusher, AskScript(reply), ErrorEvent);
      FailScript(env, idx, reply, stop.value);
      ev, disk, fail := FailStep(job, idx, stop.value, chat, ev, disk, head, start);
      return chat, ev, disk, Some(fail);
    }
    chat, ev, disk, res := Act(job, env, idx, reply, chat, ev, disk, head, start);
    PushJoin(ev0, job.pusher, AskScript(reply), ActScript(env, idx, reply, WhyOf(res)));
    ActScriptIs(env, idx, reply, WhyOf(res));
  }

  lemma ShortScripts(env: Env, idx: int)
    ensures forall reply ::
      && TurnScript(env, idx, reply, Some(AbortSeen)) == [CompleteEvent]
      && TurnScript(env, idx, reply, Some(Cancelled)) == []
  {
  }

  lemma FailScript(env: Env, idx: int, reply: Reply, why: Why)
    requires why.ModelFailed? || why.TokenCap? || why.CostCap?
    ensures TurnScript(env, idx, reply, Some(why)) == AskScript(reply) + [ErrorEvent]
  {
    hide AskScript;
    assert [] + (AskScript(reply) + [ErrorEvent]) == AskScript(reply) + [ErrorEvent];
  }

  lemma NothingPushed(ev: Events, pusher: bool)
    ensures PushAll(ev, pusher, []) == ev && Push(ev, pusher, CompleteEvent) == PushAll(ev, pusher, [CompleteEvent])
  {
    PushOne(ev, pusher, CompleteEvent);
  }

  lemma PushedAfter(ev: Events, pusher: bool, kinds: seq<EventKind>, kind: EventKind)
    ensures Push(PushAll(ev, pusher, kinds), pusher, kind) == PushAll(ev, pusher, kinds + [kind])
  {
    PushOne(PushAll(ev, pusher, kinds), pusher, kind);
    PushJoin(ev, pusher, kinds, [kind]);
  }

  lemma DecidePushed(ev: Events, pusher: bool, kinds: seq<EventKind>)
    ensures Push(PushAll(ev, pusher, kinds), pusher, ErrorEvent) == PushAll(ev, pusher, kinds + [ErrorEvent])
    ensures Push(PushAll(ev, pusher, kinds), pusher, CompleteEvent) == PushAll(ev, pusher, kinds + [CompleteEvent])
    ensures PushAll(ev, pusher, kinds) == PushAll(ev, pusher, kinds + [])
  {
    PushedAfter(ev, pusher, kinds, ErrorEvent);
    PushedAfter(ev, pusher, kinds, CompleteEvent);
    assert kinds + [] == kinds;
  }

  lemma LostEnds(job: Job, head: Message, start: int, idx: int, chat: Chat, ev: Events, disk: Disk, why: Why)
    requires Lost(why) && !why.FinalLost? && ChatReady(job.caps, head, chat) && Open(ev, job.pusher) && GoingOn(chat)
    requires DiskOk(job, start, idx, disk) && Reached(disk.actions) == if idx > start then Some(idx - 1) else None
    ensures Ended(job, head, start, chat, ev, disk, Outcome(why, idx, chat))
  {
    GoingOnEnd(chat, why);
    hide ChatOk, Exceeded, DiskOk, Reached, RepliesEnd, GoingOn, Numbered;
  }

  /** Carry out the answer: run its tools, checkpoint, write the step, and decide how to go on. */
  method Act(
      job: Job, env: Env, idx: int, reply: Reply, chat0: Chat, ev0: Events, disk0: Disk, ghost head: Message,
      ghost start: int)
    returns (chat: Chat, ev: Events, disk: Disk, res: Option<Result>)
    requires reply.Reply? && ChatReady(job.caps, head, chat0) && Open(ev0, job.pusher) && idx >= start
    requires |chat0.sent| == |chat0.replies| + 1 == idx + 1 - start && GoingOn(chat0)
    requires DiskOk(job, start, idx, disk0) && Below(disk0.log, idx)
    requires Reached(disk0.actions) == if idx > start then Some(idx - 1) else None
    ensures res == None ==> Between(job, head, start, idx + 1, chat, ev, disk)
    ensures res.Some? ==> Ended(job, head, start, chat, ev, disk, res.value) && |chat.sent| <= idx + 1 - start
    ensures ActIs(job, env, idx, reply, chat0, disk0.saved, chat, disk.saved, WhyOf(res))
    ensures disk.log == disk0.log + TurnWrites(job, env, idx, Said(env, idx, chat0.messages, reply), reply, WhyOf(res))
    ensures ev == PushAll(ev0, job.pusher, ActScript(env, idx, reply, WhyOf(res)))
  {
    hide DiskOk, Reached, ChatOk, Requests, Exceeded, Numbered, Backs, Below, RepliesEnd, NoneFinal, Trailing,
         WithIds, Between, Trim, Broke,
         Ended, Open, CheckpointOf, ToolMessages, Push, PushAll, ToolScript, FirstBroken;
    var calls := WithIds(idx, reply.calls);
    SayKeeps(job.caps, head, chat0, Message(AssistantRole, reply.content, "", calls));
    chat, ev, disk := Say(chat0, Message(AssistantRole, reply.content, "", calls)), ev0, disk0;
    var fail, stop;
    var broke;
    chat, ev, broke := UseTools(job, env, idx, calls, chat, ev, head);
    if broke {
      PushedAfter(ev0, job.pusher, ToolScript(FirstBroken(env, idx, 0, |calls|)) + [ToolCalled], ErrorEvent);
      ev, disk, fail := FailStep(job, idx, ToolFailed, chat, ev, disk, head, start);
      return chat, ev, disk, Some(fail);
    }
    var cp;
    ChatSays(job.caps, head, chat);
    disk, cp, stop := Commit(job, env, idx, if |calls| > 0 then ToolStep else LlmStep, chat.messages, disk, start);
    if stop.Some? {
      LostEnds(job, head, start, idx, chat, ev, disk, stop.value);
      return chat, ev, disk, Some(Outcome(stop.value, idx, chat));
    }
    PushKeeps(ev, job.pusher, StepEnd);
    PushedAfter(ev0, job.pusher, ToolScript(|calls|), StepEnd);
    ev := Push(ev, job.pusher, StepEnd);
    DecidePushed(ev0, job.pusher, ToolScript(|calls|) + [StepEnd]);
    chat, ev, disk, res := Decide(job, env, idx, reply, cp, chat, ev, disk, head, start);
  }

  lemma WrittenEnds(job: Job, head: Message, start: int, idx: int, chat: Chat, ev: Events, disk: Disk, why: Why, last: int)
    requires ChatReady(job.caps, head, chat) && Open(ev, job.pusher) && RepliesEnd(chat.replies, why) && start <= idx
    requires (why.Truncated? && last == idx) || ((why.Answered? || why.FinalLost?) && last == idx + 1)
    requires DiskOk(job, start, if why.Answered? then idx + 2 else idx + 1, disk)
    requires Reached(disk.actions) == Some(if why.Answered? then idx + 1 else idx)
    ensures match Announced(why)
      case None => Ended(job, head, start, chat, ev, disk, Outcome(why, last, chat))
      case Some(kind) => Ended(job, head, start, chat, Push(ev, job.pusher, kind), disk, Outcome(why, last, chat))
  {
    hide ChatOk, Exceeded, DiskOk, Reached, RepliesEnd;
    if Announced(why).Some? {
      PushKeeps(ev, job.pusher, Announced(why).value);
    }
  }

  /** After the step is written: go on, ask for the rest of a truncated answer, or stop. */
  method Decide(
      job: Job, env: Env, idx: int, reply: Reply, cp: Checkpoint, chat0: Chat, ev0: Events, disk0: Disk,
      ghost head: Message, ghost start: int)
    returns (chat: Chat, ev: Events, disk: Disk, res: Option<Result>)
    requires reply.Reply? && ChatReady(job.caps, head, chat0) && Open(ev0, job.pusher) && idx >= start
    requires |chat0.sent| == |chat0.replies| + 1 == idx + 1 - start && GoingOn(chat0)
    requires DiskOk(job, start, idx + 1, disk0) && Below(disk0.log, idx + 1) && Reached(disk0.actions) == Some(idx)
    requires Backs(job.codec, disk0.log, cp, Saved(Memory(job.run, idx, chat0.messages), env.entries(idx)))
    ensures res == None ==> Between(job, head, start, idx + 1, chat, ev, disk)
    ensures res.Some? ==> Ended(job, head, start, chat, ev, disk, res.value) && |chat.sent| <= idx + 1 - start
    ensures chat.sent == chat0.sent && chat.spent == chat0.spent && chat.replies == chat0.replies + [reply]
    ensures WhyOf(res) == (if CutReply(reply) then if chat0.lengthStops + 1 >= MAX_LENGTH_STOPS then Some(Truncated) else None
                           else if FinalReply(reply) then Some(if env.finalFails(idx) then FinalLost else Answered) else None)
    ensures res == None ==>
      chat.messages == if CutReply(reply) then chat0.messages + [Message(UserRole, CONTINUE, "", [])] else chat0.messages
    ensures disk.log == disk0.log + if WhyOf(res) == Some(Answered) then StepPut(idx + 1, FinalStep, "", Some(cp)) else []
    ensures ev == (if WhyOf(res) == Some(Truncated) then Push(ev0, job.pusher, ErrorEvent)
                   else if WhyOf(res) == Some(Answered) then Push(ev0, job.pusher, CompleteEvent) else ev0)
    ensures disk.saved ==
      if WhyOf(res) == Some(Answered) then disk0.saved[idx + 1 := Saved(Memory(job.run, idx, chat0.messages), env.entries(idx))] else disk0.saved
  {
    hide DiskOk, Reached, Requests, Exceeded, Backs, Below, Tokens, Cost, Trailing, Ended, Open;
    RepliesStep(chat0.replies, reply);
    chat, ev, disk, res := chat0.(replies := chat0.replies + [reply]), ev0, disk0, None;
    if |reply.calls| == 0 && reply.finish.FinishLength? {
      chat := chat.(lengthStops := chat.lengthStops + 1);
      if chat.lengthStops >= MAX_LENGTH_STOPS {
        WrittenEnds(job, head, start, idx, chat, ev, disk, Truncated, idx);
        ev := Push(ev, job.pusher, ErrorEvent);
        return chat, ev, disk, Some(Outcome(Truncated, idx, chat));
      }
      chat := Say(chat, Message(UserRole, CONTINUE, "", []));
      return;
    }
    chat := chat.(lengthStops := 0);
    if |reply.calls| == 0 && reply.finish.FinishStop? {
      var why;
      disk, why := Finish(job, env, idx, cp, Saved(Memory(job.run, idx, chat.messages), env.entries(idx)), disk, start);
      WrittenEnds(job, head, start, idx, chat, ev, disk, why, idx + 1);
      if why.Answered? {
        ev := Push(ev, job.pusher, CompleteEvent);
      }
      res := Some(Outcome(why, idx + 1, chat));
    }
  }

  const CONTINUE := "Your previous response was truncated due to length. Continue exactly from where you stopped, without repeating prior content."

  // ---------------------------------------------------------------- Execute

  const SYSTEM_PROMPT := "You are an AI agent. Use the available tools to complete the task. When done, provide a final answer."

  /** Where a run starts: its messages, the workspace it restored, and its first step. */
  datatype Begun = LoadFailed | Begun(messages: seq<Message>, tree: Option<WorkspaceTree.Tree>, start: int)

  function Opening(job: Job, messages: seq<Message>): seq<Message> {
    if messages == [] then [Message(SystemRole, SYSTEM_PROMPT, "", []), Message(UserRole, job.prompt, "", [])] else messages
  }

  /** A fresh run opens with the prompt; a resumed one with the memory and workspace of its checkpoint. */
  function Begin(job: Job, steps: map<StepKey, Step>, blobs: Blobs, resume: Option<Origin>, lim: Workspace.Limits): Begun {
    match resume
    case None => Begun(Opening(job, []), None, 0)
    case Some(o) =>
      if (o.run, o.step) !in steps then LoadFailed
      else
        match steps[(o.run, o.step)].checkpoint
        case None => Begun(Opening(job, []), None, o.step + 1)
        case Some(cp) =>
          var memory := if cp.memory.Some? then MemoryAt(job.codec, blobs, cp.memory.value) else Some(Memory(job.run, 0, []));
          var tree := if cp.workspace.Some? then TreeAt(job.codec, blobs, cp.workspace.value, lim) else None;
          if memory.None? || (cp.workspace.Some? && tree.None?) then LoadFailed
          else Begun(Opening(job, memory.value.messages), tree, o.step + 1)
  }

  /**
    A run begins at step 0 without a tree, or behind the step it resumes with the tree of that step's
    checkpoint; with the checkpoint's messages, or with the system message and the task's prompt if there
    are none. It fails to load exactly if the step, or an artifact its checkpoint names, cannot be had.
   */
  ghost predicate BegunRight(
      job: Job, steps: map<StepKey, Step>, blobs: Blobs, resume: Option<Origin>, lim: Workspace.Limits, begun: Begun) {
    var cp := match resume
      case None => None
      case Some(o) => if (o.run, o.step) in steps then steps[(o.run, o.step)].checkpoint else None;
    var memory := if cp.Some? then cp.value.memory else None;
    var tree := if cp.Some? then cp.value.workspace else None;
    && (begun.LoadFailed? <==>
         || (resume.Some? && (resume.value.run, resume.value.step) !in steps)
         || (memory.Some? && MemoryAt(job.codec, blobs, memory.value) == None)
         || (tree.Some? && TreeAt(job.codec, blobs, tree.value, lim) == None))
    && (begun.Begun? ==>
         && begun.start == (if resume.Some? then resume.value.step + 1 else 0)
         && begun.tree == (if tree.Some? then TreeAt(job.codec, blobs, tree.value, lim) else None)
         && if memory.Some? && MemoryAt(job.codec, blobs, memory.value).value.messages != []
            then begun.messages == MemoryAt(job.codec, blobs, memory.value).value.messages
            else
              && |begun.messages| == 2 && begun.messages[0] == Message(SystemRole, SYSTEM_PROMPT, "", [])
              && begun.messages[1] == Message(UserRole, job.prompt, "", []))
  }

  lemma BeginIs(job: Job, steps: map<StepKey, Step>, blobs: Blobs, resume: Option<Origin>, lim: Workspace.Limits)
    ensures BegunRight(job, steps, blobs, resume, lim, Begin(job, steps, blobs, resume, lim))
  {
    hide MemoryAt, TreeAt;
  }

  datatype Log = Log(chat: Chat, events: Events, disk: Disk)

  const SILENT := Chat([], [], [], 0, 0.0, [], 0)

  /** The messages before step start + n of an undisturbed conversation. */
  function Conversation(env: Env, opening: seq<Message>, start: int, n: nat): seq<Message> {
    if n == 0 then opening
    else
      var asked := Trim(Conversation(env, opening, start, n - 1), MAX_MESSAGES);
      Told(env, start + n - 1, asked, env.llm(start + n - 1, asked))
  }

  function Asked(env: Env, opening: seq<Message>, start: int, i: nat): seq<Message> {
    Trim(Conversation(env, opening, start, i), MAX_MESSAGES)
  }

  function Answer(env: Env, opening: seq<Message>, start: int, i: nat): Reply {
    env.llm(start + i, Asked(env, opening, start, i))
  }

  /** What the checkpoint of step start + i holds. */
  function Checkpointed(job: Job, env: Env, opening: seq<Message>, start: int, i: nat): Saved {
    Saved(Memory(job.run, start + i, Said(env, start + i, Asked(env, opening, start, i), Answer(env, opening, start, i))), env.entries(start + i))
  }

  /** Every request, charge, answer and checkpoint is that of the conversation. */
  ghost predicate Follows(job: Job, env: Env, opening: seq<Message>, start: int, chat: Chat, saved: map<int, Saved>) {
    && |chat.replies| <= |chat.sent| && |chat.spent| <= |chat.sent|
    && (forall i :: 0 <= i < |chat.sent| ==> chat.sent[i] == Asked(env, opening, start, i))
    && (forall i :: 0 <= i < |chat.spent| ==> Charged(env, opening, start, i, chat.spent[i]))
    && (forall i :: 0 <= i < |chat.replies| ==> chat.replies[i] == Answer(env, opening, start, i))
    && (forall i :: 0 <= i < |chat.replies| ==> SavedAt(saved, start + i, Checkpointed(job, env, opening, start, i)))
  }

  ghost predicate Charged(env: Env, opening: seq<Message>, start: int, i: nat, spent: (int, real)) {
    var r := Answer(env, opening, start, i);
    r.Reply? && spent == (r.tokens, r.cost)
  }

  ghost predicate SavedAt(saved: map<int, Saved>, idx: int, what: Saved) { idx in saved && saved[idx] == what }

  /** The calls of the first n steps. */
  function Written(job: Job, env: Env, opening: seq<Message>, start: int, n: nat): seq<Effect> {
    if n == 0 then [] else Written(job, env, opening, start, n - 1) + StepWrites(job, env, opening, start, n - 1, None)
  }

  function StepWrites(job: Job, env: Env, opening: seq<Message>, start: int, i: nat, end: Option<Why>): seq<Effect> {
    var asked, reply := Asked(env, opening, start, i), Answer(env, opening, start, i);
    TurnWrites(job, env, start + i, Said(env, start + i, asked, reply), reply, end)
  }

  /** The number of completed steps before the one the run ended in. */
  function Completed(chat: Chat, why: Why): int {
    if why.MaxSteps? || why.AbortSeen? || why.Cancelled? then |chat.sent| else |chat.sent| - 1
  }

  /** The calls are those of the completed steps and then of the last one. */
  ghost predicate WritesRight(job: Job, env: Env, opening: seq<Message>, start: int, chat: Chat, calls: seq<Effect>, why: Why) {
    var n := Completed(chat, why);
    n >= 0 && calls == Written(job, env, opening, start, n) + if why.MaxSteps? then [] else StepWrites(job, env, opening, start, n, Some(why))
  }

  /** The run ended in the step, and for the reason, that the conversation calls for. */
  ghost predicate EndsRight(job: Job, env: Env, opening: seq<Message>, start: int, chat: Chat, why: Why) {
    if why.MaxSteps? then |chat.sent| == |chat.replies| == job.maxSteps
    else
      var n := Completed(chat, why);
      && 0 <= n <= |chat.spent| && n <= |chat.replies|
      && TurnEnd(job, env, start + n, Conversation(env, opening, start, n),
                 Tokens(chat.spent[..n]), Cost(chat.spent[..n]), Trailing(chat.replies[..n])) == Some(why)
  }

  /** All turns so far were completed. */
  ghost predicate OnCourse(job: Job, env: Env, opening: seq<Message>, start: int, n: nat, chat: Chat, saved: map<int, Saved>) {
    && Follows(job, env, opening, start, chat, saved)
    && n == |chat.sent| == |chat.spent| == |chat.replies| && chat.messages == Conversation(env, opening, start, n)
    && chat.tokens == Tokens(chat.spent) && chat.cost == Cost(chat.spent) && chat.lengthStops == Trailing(chat.replies)
    && (forall i :: i in saved ==> i < start + n)
  }

  lemma SavedStays(
      job: Job, env: Env, idx: int, saved: map<int, Saved>, messages: seq<Message>, end: Option<Why>, i: int,
      what: Saved)
    requires SavedAt(saved, i, what) && i < idx
    ensures SavedAt(SavedAfter(job, env, idx, saved, messages, end), i, what)
  {
  }

  lemma TurnFollows(
      job: Job, env: Env, opening: seq<Message>, start: int, n: nat, chat0: Chat, saved0: map<int, Saved>,
      chat: Chat, saved: map<int, Saved>, end: Option<Why>)
    requires OnCourse(job, env, opening, start, n, chat0, saved0)
    requires TurnIs(job, env, start + n, chat0, saved0, chat, saved, end)
    ensures Follows(job, env, opening, start, chat, saved)
  {
    hide Trim, Said, Told, Conversation, TurnEnd, Tokens, Cost, Trailing;
    var idx, asked := start + n, Asked(env, opening, start, n);
    var reply := env.llm(idx, asked);
    if end != Some(AbortSeen) && end != Some(Cancelled) {
      var messages := Said(env, idx, asked, reply);
      forall i | 0 <= i < |chat.replies| ensures SavedAt(saved, start + i, Checkpointed(job, env, opening, start, i)) {
        if i < n {
          SavedStays(job, env, idx, saved0, messages, end, start + i, Checkpointed(job, env, opening, start, i));
        }
      }
    }
  }

  lemma TurnCount(
      job: Job, env: Env, opening: seq<Message>, start: int, n: nat, chat0: Chat, saved0: map<int, Saved>,
      chat: Chat, saved: map<int, Saved>, end: Option<Why>)
    requires OnCourse(job, env, opening, start, n, chat0, saved0)
    requires TurnIs(job, env, start + n, chat0, saved0, chat, saved, end)
    ensures Trim(chat0.messages, MAX_MESSAGES) == Asked(env, opening, start, n)
    ensures end.Some? && !end.value.MaxSteps? ==> Completed(chat, end.value) == n
  {
    hide Trim, Said, Told, Conversation, TurnEnd, Follows, Tokens, Cost, Trailing, SavedAfter;
  }

  lemma TurnWritten(
      job: Job, env: Env, opening: seq<Message>, start: int, n: nat, chat0: Chat, saved0: map<int, Saved>,
      chat: Chat, saved: map<int, Saved>, calls: seq<Effect>, end: Option<Why>)
    requires OnCourse(job, env, opening, start, n, chat0, saved0)
    requires TurnIs(job, env, start + n, chat0, saved0, chat, saved, end)
    requires var asked := Trim(chat0.messages, MAX_MESSAGES); var reply := env.llm(start + n, asked);
      calls == Written(job, env, opening, start, n) + TurnWrites(job, env, start + n, Said(env, start + n, asked, reply), reply, end)
    ensures end == None ==> calls == Written(job, env, opening, start, n + 1)
    ensures end.Some? && !end.value.MaxSteps? ==> WritesRight(job, env, opening, start, chat, calls, end.value)
  {
    hide OnCourse, TurnIs, Trim, Said, Conversation, TurnWrites, Asked, Completed;
    TurnCount(job, env, opening, start, n, chat0, saved0, chat, saved, end);
    assert calls == Written(job, env, opening, start, n) + StepWrites(job, env, opening, start, n, end);
  }

  lemma TurnGoesOn(
      job: Job, env: Env, opening: seq<Message>, start: int, n: nat, chat0: Chat, saved0: map<int, Saved>,
      chat: Chat, saved: map<int, Saved>)
    requires OnCourse(job, env, opening, start, n, chat0, saved0)
    requires TurnIs(job, env, start + n, chat0, saved0, chat, saved, None)
    ensures chat.messages == Conversation(env, opening, start, n + 1)
  {
    hide Trim, Told, TurnEnd;
  }

  lemma TurnEndsRight(
      job: Job, env: Env, opening: seq<Message>, start: int, n: nat, chat0: Chat, saved0: map<int, Saved>,
      chat: Chat, saved: map<int, Saved>, why: Why)
    requires OnCourse(job, env, opening, start, n, chat0, saved0)
    requires TurnIs(job, env, start + n, chat0, saved0, chat, saved, Some(why))
    ensures !why.MaxSteps? && EndsRight(job, env, opening, start, chat, why)
  {
    hide Trim, Said, Told, Conversation, Follows, Tokens, Cost, Trailing, ActEnd;
    assert chat.spent[..n] == chat0.spent && chat.replies[..n] == chat0.replies;
  }

  // ---------------------------------------------------------------- the end, from what happened

  /** The last written answer made no tool calls and finished with "stop". */
  ghost predicate AnsweredLast(replies: seq<Reply>) {
    var n := |replies|;
    n > 0 && replies[n - 1].Reply? && replies[n - 1].calls == [] && replies[n - 1].finish.FinishStop?
  }

  /** The last three written answers made no tool calls and were cut off. */
  ghost predicate CutThrice(replies: seq<Reply>) {
    var n := |replies|;
    n >= 3 && forall i :: n - 3 <= i < n ==> replies[i].Reply? && replies[i].calls == [] && replies[i].finish.FinishLength?
  }

  lemma TrailingIs(replies: seq<Reply>)
    ensures Trailing(replies) >= MAX_LENGTH_STOPS <==> CutThrice(replies)
  {
    var n := |replies|;
    if n >= 3 {
      var one, two, three := replies[..n - 1], replies[..n - 2], replies[..n - 3];
      assert one[..n - 2] == two && two[..n - 3] == three;
      assert Trailing(one) == if CutReply(replies[n - 2]) then 1 + Trailing(two) else 0;
      assert Trailing(two) == if CutReply(replies[n - 3]) then 1 + Trailing(three) else 0;
      assert CutThrice(replies) <==> CutReply(replies[n - 1]) && CutReply(replies[n - 2]) && CutReply(replies[n - 3]);
    }
  }

  /**
    Why a run ended, from its requests and written answers. With no request left open: the last answer
    was final and its own step was saved or not; or the last three were cut off; or the steps ran out;
    or the step about to begin was aborted or cancelled. With one open, that step was not written: the
    model failed, the tokens or then the cost went over the cap, a tool broke, or a save failed.
   */
  ghost predicate WhyRight(job: Job, env: Env, start: int, chat: Chat, why: Why) {
    var n, idx := |chat.replies|, start + |chat.replies|;
    if |chat.sent| == n then
      && |chat.spent| == n
      && why == (if AnsweredLast(chat.replies) then if env.finalFails(idx - 1) then FinalLost else Answered
                 else if CutThrice(chat.replies) then Truncated
                 else if n >= job.maxSteps then MaxSteps
                 else if env.abort(idx) then AbortSeen else Cancelled)
      && (why.Cancelled? ==> env.cancelled(idx))
    else
      && |chat.sent| == n + 1 <= job.maxSteps && !env.abort(idx) && !env.cancelled(idx)
      && BrokenOff(job, env, idx, env.llm(idx, chat.sent[n]), |chat.spent| - n, chat.tokens, chat.cost, why)
  }

  /** The step whose request was answered by this reply, and charged or not, could not be written. */
  ghost predicate BrokenOff(
      job: Job, env: Env, idx: int, reply: Reply, charged: int, tokens: int, cost: real, why: Why) {
    if reply.ModelError? then why == ModelFailed && charged == 0
    else
      && charged == 1
      && why == (if job.caps.Some? && 0 < job.caps.value.maxTokens < tokens then TokenCap
                 else if job.caps.Some? && 0.0 < job.caps.value.costCap < cost - 0.000000001 then CostCap
                 else if exists i :: 0 <= i < |reply.calls| && env.tool(idx, i).ToolBroke? then ToolFailed
                 else if env.memoryFails(idx) then MemoryLost
                 else if env.workspaceFails(idx) then WorkspaceLost
                 else FieldsLost)
      && (why.FieldsLost? ==> env.externalizeFails(idx))
  }

  /**
    The run succeeds if and only if the last written answer was final and its own step was saved; it is
    aborted if and only if it stopped at a step for which an abort was seen; otherwise it fails.
   */
  ghost predicate StatusRight(job: Job, env: Env, start: int, chat: Chat, status: RunStatus) {
    var n, idx := |chat.replies|, start + |chat.replies|;
    var succeeded := AnsweredLast(chat.replies) && !env.finalFails(idx - 1);
    var aborted := && |chat.sent| == n < job.maxSteps && !AnsweredLast(chat.replies) && !CutThrice(chat.replies)
                   && env.abort(idx);
    && (status == RunSucceeded <==> succeeded) && (status == RunAborted <==> aborted)
    && (status == RunFailed <==> !succeeded && !aborted)
  }

  lemma StatusFollows(
      job: Job, env: Env, head: Message, start: int, chat: Chat, ev: Events, disk: Disk, res: Result)
    requires Ended(job, head, start, chat, ev, disk, res) && WhyRight(job, env, start, chat, res.why)
    ensures StatusRight(job, env, start, chat, res.status)
  {
    hide ChatOk, EventsEnd, DiskEnd, NoneFinal, Trailing, Exceeded, CutThrice;
  }

  /** A turn that ends the run ends it for the right reason. */
  lemma TurnWhyRight(
      job: Job, env: Env, opening: seq<Message>, start: int, n: nat, chat0: Chat, saved0: map<int, Saved>,
      chat: Chat, saved: map<int, Saved>, why: Why)
    requires OnCourse(job, env, opening, start, n, chat0, saved0) && GoingOn(chat0) && n < job.maxSteps
    requires TurnIs(job, env, start + n, chat0, saved0, chat, saved, Some(why))
    requires chat.tokens == Tokens(chat.spent) && chat.cost == Cost(chat.spent)
    ensures WhyRight(job, env, start, chat, why)
  {
    hide Trim, Said, Told, Conversation, Follows, SavedAfter, Trailing, CutThrice, TurnEnd, BrokenOff, NoneFinal,
         AnsweredLast, FinalReply, CutReply;
    var reply := env.llm(start + n, Trim(chat0.messages, MAX_MESSAGES));
    TurnEndIs(job, env, start + n, chat0, why);
    TrailingIs(chat0.replies);
    TrailingIs(chat0.replies + [reply]);
    RepliesStep(chat0.replies, reply);
    LastOf(chat0.replies, reply);
  }

  /** No answer so far was final; the next one makes the last answer final exactly if it is. */
  lemma LastOf(replies: seq<Reply>, reply: Reply)
    ensures NoneFinal(replies) ==> !AnsweredLast(replies)
    ensures AnsweredLast(replies + [reply]) <==> FinalReply(reply)
    ensures FinalReply(reply) ==> !CutReply(reply)
  {
    assert replies != [] ==> replies[|replies| - 1] in replies;
  }

  lemma TurnEndIs(job: Job, env: Env, idx: int, chat: Chat, why: Why)
    requires TurnEnd(job, env, idx, chat.messages, chat.tokens, chat.cost, chat.lengthStops) == Some(why)
    ensures var reply := env.llm(idx, Trim(chat.messages, MAX_MESSAGES)); var done := StepDone(Some(why));
      && (why.AbortSeen? <==> env.abort(idx)) && (why.Cancelled? ==> env.cancelled(idx)) && !why.MaxSteps?
      && (!why.AbortSeen? && !why.Cancelled? ==> !env.abort(idx) && !env.cancelled(idx))
      && (done ==> reply.Reply? && (CutReply(reply) || FinalReply(reply)) && (why.Truncated? <==> CutReply(reply)))
      && (why.Truncated? ==> chat.lengthStops + 1 >= MAX_LENGTH_STOPS)
      && (why.FinalLost? || why.Answered? ==> (why.FinalLost? <==> env.finalFails(idx)))
      && (!done && !why.AbortSeen? && !why.Cancelled? ==>
           if reply.ModelError? then BrokenOff(job, env, idx, reply, 0, chat.tokens, chat.cost, why)
           else BrokenOff(job, env, idx, reply, 1, chat.tokens + reply.tokens, chat.cost + reply.cost, why))
  {
    hide Trim;
  }

  lemma RanOutRight(job: Job, env: Env, head: Message, start: int, idx: int, chat: Chat, ev: Events, disk: Disk)
    requires Between(job, head, start, idx, chat, ev, disk) && idx >= start + job.maxSteps
    ensures WhyRight(job, env, start, chat, MaxSteps)
  {
    hide ChatOk, Exceeded, Numbered, DiskOk, Below, Reached, Trailing, CutThrice;
    TrailingIs(chat.replies);
    assert chat.replies != [] ==> chat.replies[|chat.replies| - 1] in chat.replies;
  }

  // ---------------------------------------------------------------- events and records, from what happened

  function Scripts(replies: seq<Reply>): seq<EventKind> {
    if replies == [] then []
    else
      var last := replies[|replies| - 1];
      Scripts(replies[..|replies| - 1]) + if last.Reply? then StepScript(last) else []
  }

  /** The answer to a request whose step was not written. */
  function OpenReply(env: Env, start: int, chat: Chat): Reply {
    if |chat.sent| > |chat.replies| then env.llm(start + |chat.replies|, chat.sent[|chat.replies|]) else ModelError(0)
  }

  /** The events are those of the written steps, in order, and then of the end. */
  ghost predicate EventsRight(job: Job, env: Env, start: int, chat: Chat, ev: Events, why: Why) {
    ev == PushAll(Events(0, []), job.pusher,
      Scripts(chat.replies) + LastScript(env, start + |chat.replies|, OpenReply(env, start, chat), why))
  }

  lemma ScriptsStep(replies: seq<Reply>, reply: Reply)
    requires reply.Reply?
    ensures Scripts(replies + [reply]) == Scripts(replies) + StepScript(reply)
  {
    assert (replies + [reply])[..|replies|] == replies;
  }

  lemma TurnEvents(
      job: Job, env: Env, start: int, chat0: Chat, saved0: map<int, Saved>, ev0: Events, chat: Chat,
      saved: map<int, Saved>, ev: Events, end: Option<Why>)
    requires |chat0.sent| == |chat0.replies| && ev0 == PushAll(Events(0, []), job.pusher, Scripts(chat0.replies))
    requires TurnIs(job, env, start + |chat0.sent|, chat0, saved0, chat, saved, end)
    requires var idx := start + |chat0.sent|; var reply := env.llm(idx, Trim(chat0.messages, MAX_MESSAGES));
      ev == PushAll(ev0, job.pusher, TurnScript(env, idx, reply, end))
    ensures end == None ==> ev == PushAll(Events(0, []), job.pusher, Scripts(chat.replies))
    ensures end.Some? ==> EventsRight(job, env, start, chat, ev, end.value)
  {
    hide Trim, Said, Told, SavedAfter, Scripts, StepScript, AskScript, ToolScript, FirstBroken, PushAll, Conversation;
    var idx, nothing: seq<EventKind> := start + |chat0.sent|, [];
    var reply := env.llm(idx, Trim(chat0.messages, MAX_MESSAGES));
    var script, before := TurnScript(env, idx, reply, end), Scripts(chat0.replies);
    PushJoin(Events(0, []), job.pusher, before, script);
    DoneReply(job, env, idx, chat0, end);
    if StepDone(end) {
      ScriptsStep(chat0.replies, reply);
      var tail := if end.Some? then LastScript(env, idx, reply, end.value) else [];
      assert before + (StepScript(reply) + tail) == Scripts(chat.replies) + tail;
      assert Scripts(chat.replies) + nothing == Scripts(chat.replies);
    } else {
      assert before + (nothing + LastScript(env, idx, reply, end.value)) == before + LastScript(env, idx, reply, end.value);
    }
  }

  /** A step is only written for an answer. */
  lemma DoneReply(job: Job, env: Env, idx: int, chat: Chat, end: Option<Why>)
    requires end == TurnEnd(job, env, idx, chat.messages, chat.tokens, chat.cost, chat.lengthStops)
    ensures StepDone(end) ==> env.llm(idx, Trim(chat.messages, MAX_MESSAGES)).Reply?
    ensures end != Some(MaxSteps)
  {
    hide Trim;
  }

  /** References to a saved memory and workspace, under the keys of this step. */
  function RefsTo(job: Job, idx: int, what: Saved): Checkpoint {
    var memory, tree := MemoryBlob(what.memory), TreeBlob(what.entries);
    Checkpoint(
      Some(ArtifactRef(MemoryKey(job.tenant, job.task, job.run, idx), job.codec.digest(memory), job.codec.size(memory))),
      Some(ArtifactRef(WorkspaceKey(job.tenant, job.task, job.run, idx), job.codec.digest(tree), job.codec.size(tree))))
  }

  /** The record of a written step. */
  function RecordOf(job: Job, idx: int, reply: Reply, what: Saved): Step {
    Step(if reply.Reply? && reply.calls != [] then ToolStep else LlmStep, true, "", Some(RefsTo(job, idx, what)))
  }

  /** The record of a run that ends without a final answer, if it leaves one. */
  predicate EndRecord(why: Why, step: Step) {
    match why
    case AbortSeen => step == Step(FinalStep, true, "ABORTED", None)
    case ModelFailed => step == Step(LlmStep, false, "LLM_ERROR", None)
    case TokenCap => step == Step(LlmStep, false, "TOKEN_CAP_EXCEEDED", None)
    case CostCap => step == Step(LlmStep, false, "COST_CAP_EXCEEDED", None)
    case ToolFailed => step == Step(LlmStep, false, "TOOL_EXEC_ERROR", None)
    case _ => false
  }

  /**
    What a step record says. A written answer's is a tool step if the answer called tools and refers to
    what was saved for it. Behind them comes at most one more: the final step, with the checkpoint of the
    answer, the mark of an abort, or an error step with its code.
   */
  ghost predicate RecordRight(
      job: Job, start: int, replies: seq<Reply>, saved: map<int, Saved>, why: Why, idx: int, step: Step) {
    var end := start + |replies|;
    if start <= idx < end then idx in saved && step == RecordOf(job, idx, replies[idx - start], saved[idx])
    else
      && idx == end
      && if why.Answered?
         then idx - 1 in saved && step == Step(FinalStep, true, "", Some(RefsTo(job, idx - 1, saved[idx - 1])))
         else EndRecord(why, step)
  }

  /** The records among the calls of step start + i. */
  lemma StepRecord(job: Job, env: Env, opening: seq<Message>, start: int, i: nat, end: Option<Why>, idx: int, step: Step)
    requires Call(Put(idx, step)) in StepWrites(job, env, opening, start, i, end) && end != Some(MaxSteps)
    ensures var reply, what := Answer(env, opening, start, i), Checkpointed(job, env, opening, start, i);
      if StepDone(end) then
        || (idx == start + i && step == RecordOf(job, idx, reply, what))
        || (end == Some(Answered) && idx == start + i + 1 && step == Step(FinalStep, true, "", Some(RefsTo(job, idx - 1, what))))
      else idx == start + i && EndRecord(end.value, step)
  {
    hide Asked, Answer, Said;
  }

  lemma {:induction false} WrittenRecord(job: Job, env: Env, opening: seq<Message>, start: int, n: nat, idx: int, step: Step)
    requires Call(Put(idx, step)) in Written(job, env, opening, start, n)
    ensures start <= idx < start + n
    ensures step == RecordOf(job, idx, Answer(env, opening, start, idx - start), Checkpointed(job, env, opening, start, idx - start))
  {
    hide StepWrites, Answer, Checkpointed, RecordOf;
    if n > 0 {
      if Call(Put(idx, step)) in Written(job, env, opening, start, n - 1) {
        WrittenRecord(job, env, opening, start, n - 1, idx, step);
      } else {
        StepRecord(job, env, opening, start, n - 1, None, idx, step);
      }
    }
  }

  lemma RecordsRight(
      job: Job, env: Env, opening: seq<Message>, start: int, chat: Chat, saved: map<int, Saved>, calls: seq<Effect>,
      why: Why, idx: int, step: Step)
    requires Follows(job, env, opening, start, chat, saved) && WhyRight(job, env, start, chat, why)
    requires WritesRight(job, env, opening, start, chat, calls, why) && Call(Put(idx, step)) in calls
    ensures RecordRight(job, start, chat.replies, saved, why, idx, step)
  {
    hide StepWrites, Written, Answer, Checkpointed, RecordOf, RefsTo, RecordRight, Follows, WhyRight, Completed;
    var n := Completed(chat, why);
    CompletedIs(job, env, start, chat, why);
    if Call(Put(idx, step)) in Written(job, env, opening, start, n) {
      WrittenRecord(job, env, opening, start, n, idx, step);
      WrittenRight(job, env, opening, start, chat, saved, why, idx, step);
    } else {
      StepRecord(job, env, opening, start, n, Some(why), idx, step);
      if StepDone(Some(why)) && idx == start + n {
        WrittenRight(job, env, opening, start, chat, saved, why, idx, step);
      } else {
        LastRight(job, env, opening, start, chat, saved, why, idx, step);
      }
    }
  }

  ghost predicate RecordsOk(job: Job, start: int, replies: seq<Reply>, disk: Disk, why: Why) {
    forall idx, step :: Call(Put(idx, step)) in disk.log ==> RecordRight(job, start, replies, disk.saved, why, idx, step)
  }

  lemma AllRecordsRight(job: Job, env: Env, opening: seq<Message>, start: int, chat: Chat, disk: Disk, why: Why)
    requires Follows(job, env, opening, start, chat, disk.saved) && WhyRight(job, env, start, chat, why)
    requires WritesRight(job, env, opening, start, chat, disk.log, why)
    ensures RecordsOk(job, start, chat.replies, disk, why)
  {
    hide Follows, WhyRight, WritesRight, RecordRight;
    forall idx, step | Call(Put(idx, step)) in disk.log ensures RecordRight(job, start, chat.replies, disk.saved, why, idx, step) {
      RecordsRight(job, env, opening, start, chat, disk.saved, disk.log, why, idx, step);
    }
  }

  lemma RanOutEvents(job: Job, env: Env, start: int, chat: Chat, ev: Events)
    requires ev == PushAll(Events(0, []), job.pusher, Scripts(chat.replies))
    ensures EventsRight(job, env, start, chat, Push(ev, job.pusher, ErrorEvent), MaxSteps)
  {
    hide PushAll, Push, Scripts;
    PushedAfter(Events(0, []), job.pusher, Scripts(chat.replies), ErrorEvent);
  }

  lemma StartsSilent(job: Job, env: Env, opening: seq<Message>, start: int)
    ensures PushAll(Events(0, []), job.pusher, Scripts([])) == Events(0, [])
    ensures Written(job, env, opening, start, 0) == []
  {
  }

  lemma CompletedIs(job: Job, env: Env, start: int, chat: Chat, why: Why)
    requires WhyRight(job, env, start, chat, why)
    ensures Completed(chat, why) == if StepDone(Some(why)) then |chat.replies| - 1 else |chat.replies|
    ensures StepDone(Some(why)) ==> chat.replies != []
  {
    hide BrokenOff;
    assert |chat.sent| != |chat.replies| ==> BrokenOff(
      job, env, start + |chat.replies|, env.llm(start + |chat.replies|, chat.sent[|chat.replies|]),
      |chat.spent| - |chat.replies|, chat.tokens, chat.cost, why);
    BrokenOffIs(job, env, start + |chat.replies|, OpenReply(env, start, chat), |chat.spent| - |chat.replies|, chat, why);
  }

  lemma BrokenOffIs(job: Job, env: Env, idx: int, reply: Reply, charged: int, chat: Chat, why: Why)
    ensures BrokenOff(job, env, idx, reply, charged, chat.tokens, chat.cost, why) ==>
      !StepDone(Some(why)) && !why.MaxSteps? && !why.AbortSeen? && !why.Cancelled?
  {
  }

  lemma WrittenRight(
      job: Job, env: Env, opening: seq<Message>, start: int, chat: Chat, saved: map<int, Saved>, why: Why, idx: int,
      step: Step)
    requires Follows(job, env, opening, start, chat, saved) && start <= idx < start + |chat.replies|
    requires step == RecordOf(job, idx, Answer(env, opening, start, idx - start), Checkpointed(job, env, opening, start, idx - start))
    ensures RecordRight(job, start, chat.replies, saved, why, idx, step)
  {
    hide Answer, Checkpointed, RecordOf;
    assert SavedAt(saved, start + (idx - start), Checkpointed(job, env, opening, start, idx - start));
    assert chat.replies[idx - start] == Answer(env, opening, start, idx - start);
  }

  lemma LastRight(
      job: Job, env: Env, opening: seq<Message>, start: int, chat: Chat, saved: map<int, Saved>, why: Why, idx: int,
      step: Step)
    requires Follows(job, env, opening, start, chat, saved) && idx == start + |chat.replies|
    requires if why.Answered? then
        && chat.replies != []
        && step == Step(FinalStep, true, "", Some(RefsTo(job, idx - 1, Checkpointed(job, env, opening, start, |chat.replies| - 1))))
      else EndRecord(why, step)
    ensures RecordRight(job, start, chat.replies, saved, why, idx, step)
  {
    hide Answer, Checkpointed, RefsTo;
    if why.Answered? {
      var i := |chat.replies| - 1;
      assert SavedAt(saved, start + i, Checkpointed(job, env, opening, start, i));
    }
  }

  lemma StartsBetween(job: Job, messages: seq<Message>, start: int)
    requires messages != []
    ensures Between(job, messages[0], start, start, SILENT.(messages := messages), Events(0, []), BLANK)
  {
  }

  method Execute(job: Job, env: Env, steps: map<StepKey, Step>, blobs: Blobs, resume: Option<Origin>, lim: Workspace.Limits)
    returns (res: Option<Result>, log: Log)
    ensures res == None <==> env.promptOk && Begin(job, steps, blobs, resume, lim).LoadFailed?
    ensures !env.promptOk ==> res == Some(Result(RunFailed, -1, PromptRejected, 0, 0.0))
    ensures !env.promptOk || res == None ==> log == Log(SILENT, Events(0, []), BLANK)
    ensures env.promptOk && res.Some? ==>
      var begun := Begin(job, steps, blobs, resume, lim);
      && begun.messages != [] && Follows(job, env, begun.messages, begun.start, log.chat, log.disk.saved)
      && WhyRight(job, env, begun.start, log.chat, res.value.why)
      && StatusRight(job, env, begun.start, log.chat, res.value.status)
      && EventsRight(job, env, begun.start, log.chat, log.events, res.value.why)
      && RecordsOk(job, begun.start, log.chat.replies, log.disk, res.value.why)
      && (job.maxSteps >= 0 ==> EndsRight(job, env, begun.messages, begun.start, log.chat, res.value.why))
      && (job.maxSteps >= 0 ==> WritesRight(job, env, begun.messages, begun.start, log.chat, log.disk.log, res.value.why))
      && |log.chat.sent| <= (if job.maxSteps < 0 then 0 else job.maxSteps)
      && (job.maxSteps >= 0 ==> Ended(job, begun.messages[0], begun.start, log.chat, log.events, log.disk, res.value))
  {
    hide Between, Ended, Trim, Begin, OnCourse, TurnIs, Follows, EndsRight, WritesRight, Said, TurnWrites, StepWrites,
         WhyRight, StatusRight, EventsRight, RecordsOk, PushAll, TurnScript, Scripts, Written;
    log := Log(SILENT, Events(0, []), BLANK);
    if !env.promptOk {
      return Some(Result(RunFailed, -1, PromptRejected, 0, 0.0)), log;
    }
    var begun := Begin(job, steps, blobs, resume, lim);
    if begun.LoadFailed? {
      return None, log;
    }
    OpensWithSomething(job, steps, blobs, resume, lim);
    var chat, ev, disk := SILENT.(messages := begun.messages), Events(0, []), BLANK;
    ghost var head := begun.messages[0];
    StartsBetween(job, begun.messages, begun.start);
    StartsOnCourse(job, env, begun.messages, begun.start);
    StartsSilent(job, env, begun.messages, begun.start);
    var idx := begun.start;
    while idx < begun.start + job.maxSteps
      invariant begun.start <= idx && (job.maxSteps >= 0 ==> idx <= begun.start + job.maxSteps)
      invariant Between(job, head, begun.start, idx, chat, ev, disk)
      invariant OnCourse(job, env, begun.messages, begun.start, idx - begun.start, chat, disk.saved)
      invariant disk.log == Written(job, env, begun.messages, begun.start, idx - begun.start)
      invariant ev == PushAll(Events(0, []), job.pusher, Scripts(chat.replies))
      invariant job.maxSteps < 0 ==> idx == begun.start
    {
      ghost var n, chat0, saved0, ev0 := idx - begun.start, chat, disk.saved, ev;
      BetweenGoesOn(job, head, begun.start, idx, chat, ev, disk);
      chat, ev, disk, res := Turn(job, env, idx, chat, ev, disk, head, begun.start);
      TurnFollows(job, env, begun.messages, begun.start, n, chat0, saved0, chat, disk.saved, WhyOf(res));
      TurnWritten(job, env, begun.messages, begun.start, n, chat0, saved0, chat, disk.saved, disk.log, WhyOf(res));
      TurnEvents(job, env, begun.start, chat0, saved0, ev0, chat, disk.saved, ev, WhyOf(res));
      if res.Some? {
        TurnEndsRight(job, env, begun.messages, begun.start, n, chat0, saved0, chat, disk.saved, res.value.why);
        EndedTotals(job, head, begun.start, chat, ev, disk, res.value);
        TurnWhyRight(job, env, begun.messages, begun.start, n, chat0, saved0, chat, disk.saved, res.value.why);
        StatusFollows(job, env, head, begun.start, chat, ev, disk, res.value);
        AllRecordsRight(job, env, begun.messages, begun.start, chat, disk, res.value.why);
        return res, Log(chat, ev, disk);
      }
      TurnGoesOn(job, env, begun.messages, begun.start, n, chat0, saved0, chat, disk.saved);
      StaysOnCourse(job, env, begun.messages, head, begun.start, idx + 1, chat, ev, disk);
      BetweenCount(job, head, begun.start, idx + 1, chat, ev, disk);
      idx := idx + 1;
    }
    BetweenCount(job, head, begun.start, idx, chat, ev, disk);
    OutOfSteps(job, head, begun.start, idx, chat, ev, disk);
    RanOut(job, env, begun.messages, begun.start, idx - begun.start, chat, disk.saved, disk.log);
    RanOutRight(job, env, head, begun.start, idx, chat, ev, disk);
    StatusFollows(
      job, env, head, begun.start, chat, Push(ev, job.pusher, ErrorEvent), disk, Outcome(MaxSteps, idx - 1, chat));
    AllRecordsRight(job, env, begun.messages, begun.start, chat, disk, MaxSteps);
    RanOutEvents(job, env, begun.start, chat, ev);
    ev := Push(ev, job.pusher, ErrorEvent);
    res := Some(Outcome(MaxSteps, begun.start + job.maxSteps - 1, chat));
    log := Log(chat, ev, disk);
  }

  lemma StartsOnCourse(job: Job, env: Env, opening: seq<Message>, start: int)
    ensures OnCourse(job, env, opening, start, 0, SILENT.(messages := opening), map[])
  {
  }

  lemma StaysOnCourse(
      job: Job, env: Env, opening: seq<Message>, head: Message, start: int, idx: int, chat: Chat, ev: Events,
      disk: Disk)
    requires idx >= start && Between(job, head, start, idx, chat, ev, disk)
    requires Follows(job, env, opening, start, chat, disk.saved)
    requires chat.messages == Conversation(env, opening, start, idx - start)
    ensures OnCourse(job, env, opening, start, idx - start, chat, disk.saved)
  {
    hide Follows, Conversation, Requests, Exceeded, Tokens, Cost, Trailing, NoneFinal, Numbered, LogOk, Below,
         Indexes, Range, Reached;
  }

  lemma RanOut(
      job: Job, env: Env, opening: seq<Message>, start: int, n: nat, chat: Chat, saved: map<int, Saved>,
      calls: seq<Effect>)
    requires OnCourse(job, env, opening, start, n, chat, saved) && calls == Written(job, env, opening, start, n)
    ensures WritesRight(job, env, opening, start, chat, calls, MaxSteps)
    ensures Follows(job, env, opening, start, chat, saved)
    ensures (job.maxSteps == n ==> EndsRight(job, env, opening, start, chat, MaxSteps))
  {
    hide Follows, Conversation, Written;
    assert calls + [] == calls;
  }

  lemma OpensWithSomething(job: Job, steps: map<StepKey, Step>, blobs: Blobs, resume: Option<Origin>, lim: Workspace.Limits)
    ensures var begun := Begin(job, steps, blobs, resume, lim); begun.Begun? ==> begun.messages != []
  {
    hide MemoryAt, TreeAt;
  }

  lemma OutOfSteps(job: Job, head: Message, start: int, idx: int, chat: Chat, ev: Events, disk: Disk)
    requires Between(job, head, start, idx, chat, ev, disk)
    ensures Ended(job, head, start, chat, Push(ev, job.pusher, ErrorEvent), disk, Outcome(MaxSteps, idx - 1, chat))
  {
    hide ChatOk, Exceeded, RepliesEnd, DiskOk, GoingOn, Reached;
    PushKeeps(ev, job.pusher, ErrorEvent);
    GoingOnEnd(chat, MaxSteps);
  }

  lemma BetweenCount(job: Job, head: Message, start: int, idx: int, chat: Chat, ev: Events, disk: Disk)
    requires Between(job, head, start, idx, chat, ev, disk)
    ensures |chat.sent| == idx - start
  {
  }

  lemma BetweenGoesOn(job: Job, head: Message, start: int, idx: int, chat: Chat, ev: Events, disk: Disk)
    requires Between(job, head, start, idx, chat, ev, disk)
    ensures GoingOn(chat) && |chat.sent| == |chat.replies| == idx - start
  {
  }

  lemma EndedTotals(job: Job, head: Message, start: int, chat: Chat, ev: Events, disk: Disk, res: Result)
    requires Ended(job, head, start, chat, ev, disk, res)
    ensures chat.tokens == Tokens(chat.spent) && chat.cost == Cost(chat.spent)
  {
  }

  // ---------------------------------------------------------------- what was said

  /**
    A step's memory is what was asked, then the model's content and calls, then one tool message per
    call under the call's id. A call without an id got one from the step and its place.
   */
  ghost predicate StepSays(env: Env, idx: int, asked: seq<Message>, reply: Reply, said: seq<Message>)
    requires reply.Reply?
  {
    var n := |asked|;
    && |said| == n + 1 + |reply.calls| && said[..n] == asked
    && said[n] == Message(AssistantRole, reply.content, "", said[n].toolCalls) && |said[n].toolCalls| == |reply.calls|
    && (forall j :: 0 <= j < |reply.calls| ==> CallKept(idx, j, reply.calls[j], said[n].toolCalls[j]))
    && (forall j :: 0 <= j < |reply.calls| ==> CallAnswered(said[n].toolCalls[j], env.tool(idx, j), said[n + 1 + j]))
  }

  ghost predicate CallKept(idx: int, j: nat, call: ToolCall, kept: ToolCall) {
    && kept.name == call.name && kept.args == call.args
    && kept.id == if call.id != "" then call.id else "call_" + Itoa(idx) + "_" + Itoa(j)
  }

  ghost predicate CallAnswered(call: ToolCall, out: ToolOutcome, m: Message) {
    m.role == ToolRole && m.toolCallId == call.id && m.toolCalls == [] && (out.ToolSaid? ==> m.content == out.text)
  }

  lemma {:induction false} ToolMessagesAre(env: Env, idx: int, calls: seq<ToolCall>, n: nat)
    requires n <= |calls|
    ensures var said := ToolMessages(env, idx, calls, n);
      |said| == n && forall j :: 0 <= j < n ==> CallAnswered(calls[j], env.tool(idx, j), said[j])
  {
    if n > 0 {
      ToolMessagesAre(env, idx, calls, n - 1);
    }
  }

  lemma SaidIs(env: Env, idx: int, asked: seq<Message>, reply: Reply)
    requires reply.Reply?
    ensures StepSays(env, idx, asked, reply, Said(env, idx, asked, reply))
  {
    hide WithIds, ToolMessages, CallKept, CallAnswered;
    var calls := WithIds(idx, reply.calls);
    WithIdsKeep(idx, reply.calls);
    ToolMessagesAre(env, idx, calls, |calls|);
    assert Said(env, idx, asked, reply)[|asked|].toolCalls == calls;
  }

  lemma WithIdsKeep(idx: int, calls: seq<ToolCall>)
    ensures forall j :: 0 <= j < |calls| ==> CallKept(idx, j, calls[j], WithIds(idx, calls)[j])
  {
  }

  /**
    Every written step of a run was saved with what the model and the tools said in it, and the next
    request is that memory, trimmed, with a request to continue behind it if the answer was cut off.
   */
  lemma RunSays(job: Job, env: Env, opening: seq<Message>, start: int, chat: Chat, saved: map<int, Saved>, why: Why, i: nat)
    requires Follows(job, env, opening, start, chat, saved) && WhyRight(job, env, start, chat, why)
    requires i < |chat.replies|
    ensures chat.replies[i] == env.llm(start + i, chat.sent[i]) && chat.replies[i].Reply? && start + i in saved
    ensures StepSays(env, start + i, chat.sent[i], chat.replies[i], saved[start + i].memory.messages)
    ensures i + 1 < |chat.sent| ==>
      var cut := chat.replies[i].calls == [] && chat.replies[i].finish.FinishLength?;
      var more := if cut then [Message(UserRole, CONTINUE, "", [])] else [];
      chat.sent[i + 1] == Trim(saved[start + i].memory.messages + more, 64)
  {
    hide Trim, Said, WithIds, ToolMessages, StepSays;
    assert Charged(env, opening, start, i, chat.spent[i]);
    assert SavedAt(saved, start + i, Checkpointed(job, env, opening, start, i));
    SaidIs(env, start + i, chat.sent[i], chat.replies[i]);
    var said := saved[start + i].memory.messages;
    assert said + [] == said;
  }

  /** No request is sent once the answers before it cost more than a cap allows. */
  lemma WithinCaps(job: Job, head: Message, chat: Chat, i: nat)
    requires ChatOk(job.caps, head, chat) && i < |chat.sent| && job.caps.Some?
    ensures i <= |chat.spent| && |chat.sent[i]| <= 64
    ensures job.caps.value.maxTokens > 0 ==> Tokens(chat.spent[..i]) <= job.caps.value.maxTokens
    ensures job.caps.value.costCap > 0.0 ==> Cost(chat.spent[..i]) <= job.caps.value.costCap + 0.000000001
  {
    assert 1 <= |chat.sent[i]| <= MAX_MESSAGES;
  }
}
