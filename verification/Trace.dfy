/** What a run of the agent loop does, as a log of events in order. */
module Trace {
  import opened Common
  import opened ToolCalls
  import Permission

  datatype Image = Image(url: string, mediaType: string)

  /***** The model's streams *****/

  datatype Chunk = Chunk(content: string, reasoning: string, images: seq<Image>, deltas: seq<ToolDelta>)

  /** A decoded event: the cost it reports, and its chunks unless it does not parse. */
  datatype ServerEvent = ServerEvent(cost: Option<real>, chunks: Option<seq<Chunk>>)

  /** What the stream loop takes from its channels, in the order in which it takes them. */
  datatype Item = Ev(event: ServerEvent) | NilError | Fault | Done

  /** What `runStream` returns. */
  datatype Reply = Reply(text: string, reasoning: string, images: seq<Image>, calls: Pending,
                         cost: Option<real>, error: Option<Failure>, emitted: bool)

  /***** History *****/

  datatype Role = SystemRole | UserRole | AssistantRole | ToolRole | OtherRole(name: string)

  /** One entry of the chat history. Tool calls and the answered call are present only where used. */
  datatype Entry = Entry(role: Role, content: string, reasoning: string, images: seq<Image>,
                         calls: seq<Call>, answers: Option<string>)

  /** A message handed to a run. Callers may leave the role out, or set any. */
  datatype Input = Input(role: Option<Role>, content: string)

  /***** Messages and errors for the consumer *****/

  datatype ResultKind = Success | BudgetExceeded | Interrupted

  datatype Msg =
    | System(prompt: string)
    | User(id: string, content: string)
    | StreamEvent
    | Thinking(thought: string)
    | Partial(text: string)
    | Pictures(images: seq<Image>)
    | Final(text: string, reasoning: string, images: seq<Image>)
    | ToolUse(call: Call, input: string)
    | ToolResult(callId: string, output: string)
    | Result(kind: ResultKind, turns: nat, cost: Option<real>, text: string)

  datatype Failure =
    | NoTransport | StartFailed | StreamFailed | BadEvent | Cancelled | HookFailed | BadHookOutput
    | CheckpointFailed | PermissionDenied | TurnsExhausted

  /***** Hooks and callbacks *****/

  datatype HookEvent = UserPromptSubmit | PermissionRequest | PreToolUse | PostToolUse | PostToolUseFailure | Stop

  type Updates = seq<Option<Permission.Update>>

  /**
   * A permission decision in a hook's output. A field that is absent or of the wrong type is `None`,
   * except that updates and suggestions that are present but no list are empty ones.
   */
  datatype Decision = Decision(behavior: Option<string>, message: Option<string>, interrupt: Option<bool>,
                               input: Option<string>, updates: Option<Updates>, suggestions: Option<Updates>)

  datatype HookOutput =
    | Async
    | Other
    | Sync(suppress: bool, stopReason: bool, systemMessage: bool, continues: Option<bool>, decision: Option<Decision>)

  datatype HookReply = HookError | Outputs(outputs: seq<HookOutput>)

  /** The permission callback; `NoCallback` when none is configured. */
  datatype Answer =
    | NoCallback | CallbackError | WrongType
    | Allow(input: Option<string>, updates: Updates)
    | Deny(message: string, interrupt: bool)

  /***** The log *****/

  datatype Event =
    | Sent(msg: Msg)
    | Failed(failure: Failure)
    | Opened(session: string)
    | Issued(uid: string)
    | Hooked(event: HookEvent, tool: string, input: string, reply: HookReply)
    | Checkpointed(uid: string, messages: seq<Entry>)
    | Streamed(turn: nat, attempt: nat, model: string, history: seq<Entry>)
    | Ended(items: seq<Item>, result: Reply)
    | Planned(calls: seq<Call>)
    | Checked(name: string, policy: Permission.Policy)
    | Asked(name: string, given: string, suggestions: Updates, answer: Answer)
    | Called(server: string, toolName: string, args: string, output: Option<string>)
    | Saved(messages: seq<Entry>)
    | ModeSet(mode: string)
    | ModelSet(model: string)

  /** What the consumer does to a run from outside: `SetPermissionMode` and `SetModel`. */
  predicate Control(e: Event) { e.ModeSet? || e.ModelSet? }

  /** `now` is `before` and a first part of `due`. */
  ghost predicate PartOf(before: seq<Event>, now: seq<Event>, due: seq<Event>) {
    before <= now && now <= before + due
  }

  lemma Assoc<T>(x: seq<T>, y: seq<T>, z: seq<T>)
    ensures x + y + z == x + (y + z)
  {
  }

  /** A part of the next piece is a part of everything due. */
  lemma PartGrows(before: seq<Event>, done: seq<Event>, now: seq<Event>, next: seq<Event>, due: seq<Event>)
    requires PartOf(before + done, now, next) && done + next <= due
    ensures PartOf(before, now, due)
  {
    assert before + done + next == before + (done + next);
    assert due == done + next + due[|done + next|..];
  }

  /** The channels of one run and the other effects, in one order. */
  class Wire {
    var log: seq<Event>

    constructor ()
      ensures log == []
    {
      log := [];
    }

    /** The `select` around a send: either the message goes out or the context is done. */
    method Send(m: Msg) returns (sent: bool)
      modifies this
      ensures log == if sent then old(log) + [Sent(m)] else old(log)
    {
      sent := *;
      if sent { log := log + [Sent(m)]; }
    }

    /** The same for an error that is not the last thing a run does. */
    method Report(f: Failure) returns (sent: bool)
      modifies this
      ensures log == if sent then old(log) + [Failed(f)] else old(log)
    {
      sent := *;
      if sent { log := log + [Failed(f)]; }
    }

    method Note(e: Event)
      modifies this
      ensures log == old(log) + [e]
    {
      log := log + [e];
    }
  }
}
