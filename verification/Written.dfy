// What gets into the stored history, field by field.

module Written {
  import opened Types
  import opened Session
  import opened Approval
  import A = Accumulator
  import T = Text

  // ---------------------------------------------------------------- every write

  // The text a message is listed under: its texts, a line each, and none if it has none.
  predicate Summarised(m: Message) {
    && (m.textContent == None <==> TextsOf(m.content) == [])
    && (m.textContent.Some? ==> m.textContent.value == T.Join(TextsOf(m.content), "\n"))
  }

  // What a task at this point writes when it gets this row.
  predicate Writes(pc: Pc, c: Choice, m: Message) {
    && c.Row? && m.id == c.id && m.createdAt == c.now
    && match pc
       case SavingReply(_, acc) => IsReply(m, acc)
       case SavingPartial(_, acc) => IsReply(m, acc)
       case Appending(content) =>
         && m.role == User && m.content == content && Summarised(m)
         && m.inputTokens == None && m.outputTokens == None
       case Answering(_, results, _) =>
         && m.role == User && m.content == results && m.textContent == None
         && m.inputTokens == None && m.outputTokens == None
       case Erring(_, error) =>
         && m.role == User && m.content == [Text("Tool execution failed with error: " + error)]
         && m.textContent == Some("Tool execution error: " + error)
         && m.inputTokens == None && m.outputTokens == None
       case _ => false
  }

  predicate IsReply(m: Message, acc: A.Acc) {
    && m.role == Assistant && m.content == acc.blocks && Summarised(m)
    && m.inputTokens == Some(acc.usage.inputTokens) && m.outputTokens == Some(acc.usage.outputTokens)
  }

  predicate WritesOnly(pc: Pc, c: Choice, turn: Turn) { turn.effect.Insert? ==> Writes(pc, c, turn.effect.msg) }

  lemma RunWrites(s: State, pc: Pc, c: Choice, turn: Turn)
    requires MoveRun(s, pc, c) == Some(turn)
    ensures WritesOnly(pc, c, turn)
  {}

  lemma ReplyWrites(env: Env, s: State, pc: Pc, c: Choice, turn: Turn)
    requires MoveReply(env, s, pc, c) == Some(turn)
    ensures WritesOnly(pc, c, turn)
  {
    hide MakeBatch, NeedsApproval, CallsOf, Rejections, Meaningful, T.Join, TextsOf, A.Apply;
  }

  lemma PromptWrites(env: Env, s: State, pc: Pc, c: Choice, turn: Turn)
    requires MovePrompt(env, s, pc, c) == Some(turn)
    ensures WritesOnly(pc, c, turn)
  {
    hide Remember, Rejections;
  }

  lemma ToolsWrite(s: State, pc: Pc, c: Choice, turn: Turn)
    requires MoveTools(s, pc, c) == Some(turn)
    ensures WritesOnly(pc, c, turn)
  {
    hide Rejections, Joined, Answers;
  }

  lemma CommandWrites(s: State, pc: Pc, c: Choice, turn: Turn)
    requires MoveCommand(s, pc, c) == Some(turn)
    ensures WritesOnly(pc, c, turn)
  {
    hide T.Join, TextsOf;
  }

  lemma MovesWrite(env: Env, s: State, pc: Pc, c: Choice, turn: Turn)
    requires Move(env, s, pc, c) == Some(turn)
    ensures WritesOnly(pc, c, turn)
  {
    hide MoveRun, MoveReply, MovePrompt, MoveTools, MoveCommand, WritesOnly;
    match PhaseOf(pc) {
      case InLoop => RunWrites(s, pc, c, turn);
      case InReply => ReplyWrites(env, s, pc, c, turn);
      case InPrompt => PromptWrites(env, s, pc, c, turn);
      case InTools => ToolsWrite(s, pc, c, turn);
      case InCommand => CommandWrites(s, pc, c, turn);
    }
  }

  // One action stores one message, which the task that acts was there to write.
  predicate StoresOne(s: State, a: Action, s': State) {
    && a.Step? && a.task in s.tasks && |s'.stored| == |s.stored| + 1
    && s'.stored[..|s.stored|] == s.stored && Writes(s.tasks[a.task], a.choice, s'.stored[|s.stored|])
  }

  // Whatever happens to a session, its stored history only grows, by one message at a
  // time: a reply with its tokens, a user's message, results, or a tool error.
  lemma HistoryIsWritten(env: Env, s: State, a: Action, s': State)
    requires Next(env, s, a) == Some(s')
    ensures s'.stored == s.stored || StoresOne(s, a, s')
  {
    hide Move, Writes;
    if a.Step? {
      var turn := Move(env, s, s.tasks[a.task], a.choice).value;
      MovesWrite(env, s, s.tasks[a.task], a.choice, turn);
    }
  }
}
