// From a provider's chunks to the stored reply and to what the turn does next.

module FromChunks {
  import opened Types
  import opened Session
  import opened Approval
  import opened ChunkReplies
  import opened Outcomes
  import opened Written
  import Asking
  import Tr = Translator
  import A = Accumulator
  import T = Text

  // No number is left out between the calls.
  predicate Gapless(cs: seq<Tr.Choice>, n: nat) {
    forall i: nat :: i + 1 < n ==> PiecesAt(PiecesOf(cs), i) != []
  }

  lemma {:induction false} NoTexts(blocks: seq<ContentBlock>)
    requires forall k :: 0 <= k < |blocks| ==> !blocks[k].Text?
    ensures TextsOf(blocks) == []
  {
    if blocks != [] { NoTexts(blocks[1..]); }
  }

  lemma TextInFront(blocks: seq<ContentBlock>, text: string)
    requires blocks != [] && blocks[0] == Text(text) && forall k :: 0 < k < |blocks| ==> !blocks[k].Text?
    ensures TextsOf(blocks) == [text] && T.Join(TextsOf(blocks), "\n") == text
  {
    NoTexts(blocks[1..]);
  }

  lemma MadeIsCall(parse: JsonParser, pieces: seq<Tr.ToolChunk>, i: nat, block: ContentBlock)
    requires pieces != [] && Makes(parse, pieces, i, block)
    ensures block.ToolUse?
  {}

  lemma GaplessText(parse: JsonParser, cs: seq<Tr.Choice>, blocks: seq<ContentBlock>)
    requires BlocksOf(parse, cs, blocks) && blocks != [] && Gapless(cs, |blocks|)
    ensures TextsOf(blocks) == [ContentOf(cs)] && T.Join(TextsOf(blocks), "\n") == ContentOf(cs)
  {
    hide TextsOf, T.Join, Makes, PiecesAt, PiecesOf, ContentOf;
    forall k: nat | 0 < k < |blocks| ensures blocks[k].ToolUse? {
      assert PiecesAt(PiecesOf(cs), k - 1) != [];
      MadeIsCall(parse, PiecesAt(PiecesOf(cs), k - 1), k, blocks[k]);
    }
    TextInFront(blocks, ContentOf(cs));
  }

  lemma CallsFromPieces(parse: JsonParser, cs: seq<Tr.Choice>, blocks: seq<ContentBlock>)
    requires BlocksOf(parse, cs, blocks)
    ensures CallsOf(blocks) == [] <==> PiecesOf(cs) == []
  {
    hide CallsOf, Makes, PiecesAt, PiecesOf, ContentOf;
    var pieces := PiecesOf(cs);
    Asking.SomeCall(blocks);
    if pieces == [] {
      forall k: nat | k < |blocks| ensures !blocks[k].ToolUse? {
        if k > 0 { NothingAt(k - 1); }
      }
    } else {
      var p := pieces[0];
      assert p in pieces;
      var i := Tr.GetOr(p.index, 0);
      PieceIsSomewhere(pieces, p);
      MadeIsCall(parse, PiecesAt(pieces, i), i + 1, blocks[i + 1]);
    }
  }

  lemma NothingAt(i: nat)
    ensures PiecesAt([], i) == []
  {}

  // The reply the chunks of a finished stream spell, in the database: its blocks, its text
  // where no call's number is left out, and the last usage that was reported.
  ghost predicate Files(parse: JsonParser, chunks: seq<Tr.Chunk>, m: Message) {
    var cs := AllChoices(chunks);
    && m.role == Assistant && BlocksOf(parse, cs, m.content)
    && m.inputTokens == Some(LastUsage(chunks).inputTokens) && m.outputTokens == Some(LastUsage(chunks).outputTokens)
    && (m.content == [] ==> m.textContent == None)
    && (m.content != [] && Gapless(cs, |m.content|) ==> m.textContent == Some(ContentOf(cs)))
  }

  ghost function ReplyOf(parse: JsonParser, chunks: seq<Tr.Chunk>): A.Acc {
    A.Accumulate(parse, Tr.Events(AllAtoms(chunks)))
  }

  lemma ReplyIsFiled(parse: JsonParser, chunks: seq<Tr.Chunk>, f: Tr.FinishReason, pc: Pc,
                     id: int, now: int, m: Message)
    requires FinishedBy(AllChoices(chunks), f)
    requires pc.SavingReply? && pc.acc == ReplyOf(parse, chunks) && Writes(pc, Row(id, now), m)
    ensures Files(parse, chunks, m)
  {
    hide BlocksOf, FinishedBy, AllChoices, AllAtoms, LastUsage, Gapless, StopsFor, TextsOf, T.Join, ContentOf;
    StreamedReply(parse, chunks, f);
    if m.content != [] && Gapless(AllChoices(chunks), |m.content|) {
      GaplessText(parse, AllChoices(chunks), m.content);
    }
    assert TextsOf([]) == [] by { NoTexts([]); }
  }

  // The reply a stream spelled goes into both histories as one message, and then its tools
  // are looked at if and only if the provider finished for them and named some; otherwise
  // the turn ends.
  lemma FinishedStreamDecides(env: Env, s: State, t: nat, i: nat, chunks: seq<Tr.Chunk>, f: Tr.FinishReason,
                              id: int, now: int)
    requires FinishedBy(AllChoices(chunks), f) && s.nextId <= id
    requires t in s.tasks && s.tasks[t] == SavingReply(i, ReplyOf(env.parse, chunks))
    ensures var s' := Steps(env, s, t, [Row(id, now), Go]);
      && s'.Some? && |s'.value.stored| == |s.stored| + 1 && |s'.value.cached| == |s.cached| + 1
      && var m := s'.value.stored[|s.stored|];
         && m.id == id && m.createdAt == now && Files(env.parse, chunks, m)
         && s'.value.stored == s.stored + [m] && s'.value.cached == s.cached + [m]
         && t in s'.value.tasks && s'.value.tasks[t] == Replied(i, ReplyOf(env.parse, chunks))
         && (Move(env, s'.value, s'.value.tasks[t], Go) == To(Ending(i))
             <==> !(f.ToolCalls? || f.FunctionCall?) || PiecesOf(AllChoices(chunks)) == [])
  {
    hide Move, Steps, AssistantMessage, Told, FinishedBy, AllChoices, AllAtoms, Files, Writes, A.Accumulate, Tr.Events;
    var acc := ReplyOf(env.parse, chunks);
    var m := AssistantMessage(id, now, acc);
    var t1 := Turn(Pushing(m, AfterReply(i, acc)), Insert(m));
    var t2 := Turn(Replied(i, acc), Cache(m));
    SavingMoves(env, s, i, acc, id, now);
    var s1 := Advance(s, t, t1);
    PushMove(env, s1, m, AfterReply(i, acc));
    FirstStep(env, s, t, Row(id, now), [Go], t1);
    FirstStep(env, s1, t, Go, [], t2);
    var s2 := Advance(s1, t, t2);
    NoSteps(env, s2, t);
    assert [Row(id, now)] + [Go] == [Row(id, now), Go] && [Go] + [] == [Go];
    MovesWrite(env, s, s.tasks[t], Row(id, now), t1);
    ReplyIsFiled(env.parse, chunks, f, s.tasks[t], id, now, m);
    MessageFields(id, now, acc);
    ReplyEnds(env, s2, i, chunks, f);
  }

  lemma SavingMoves(env: Env, s: State, i: nat, acc: A.Acc, id: int, now: int)
    requires s.nextId <= id
    ensures var m := AssistantMessage(id, now, acc);
      Move(env, s, SavingReply(i, acc), Row(id, now)) == Some(Turn(Pushing(m, AfterReply(i, acc)), Insert(m)))
  {
    hide TextContent, Meaningful;
  }

  lemma MessageFields(id: int, now: int, acc: A.Acc)
    ensures AssistantMessage(id, now, acc).id == id && AssistantMessage(id, now, acc).createdAt == now
  {}

  lemma ReplyEnds(env: Env, s: State, i: nat, chunks: seq<Tr.Chunk>, f: Tr.FinishReason)
    requires FinishedBy(AllChoices(chunks), f)
    ensures Move(env, s, Replied(i, ReplyOf(env.parse, chunks)), Go) == To(Ending(i))
       <==> !(f.ToolCalls? || f.FunctionCall?) || PiecesOf(AllChoices(chunks)) == []
  {
    hide FinishedBy, AllChoices, AllAtoms, A.Accumulate, Tr.Events, BlocksOf, LastUsage, CallsOf, MakeBatch,
         NeedsApproval, Rejections, PiecesOf;
    StreamedReply(env.parse, chunks, f);
    CallsFromPieces(env.parse, AllChoices(chunks), ReplyOf(env.parse, chunks).blocks);
  }
}
