// The message list behind the chat view (clareon/src/message_list_model.rs): rows, token
// totals, grouping and the streaming placeholder, all kept up to date piece by piece.

module MessageList {
  import opened Types

  const GROUPING_GAP_SECS := 300
  const PLACEHOLDER := -1
  const ERROR_ROW := -2

  datatype RowState = Thinking | StreamingText | Complete | Error

  datatype Row = Row(
    id: int,
    role: string,
    text: string,
    createdAt: int,
    state: RowState,
    error: Option<string>,
    partialContent: Option<string>,
    inputTokens: Option<int>,
    outputTokens: Option<int>,
    grouped: bool)

  datatype MessageData = MessageData(
    id: int, role: string, text: string, createdAt: int, inputTokens: Option<int>, outputTokens: Option<int>)

  datatype Response =
    | MessagesLoaded(messages: seq<MessageData>)
    | MessageSent(message: MessageData)
    | StreamingStarted
    | StreamingChunk(delta: string, accumulated: string)
    | StreamingComplete(message: MessageData)
    | StreamingStopped(stopped: Option<MessageData>)
    | ToolApprovalRequired(toolsJson: string)
    | SendMessageError(error: string)
    | StreamingError(error: string, partialText: string)

  datatype Model = Model(
    rows: seq<Row>, totalInput: int, totalOutput: int, streaming: bool, pendingApproval: string)

  const EMPTY_MODEL := Model([], 0, 0, false, "")

  // ---------------------------------------------------------------- full recompute

  predicate Groups(prev: Row, row: Row) {
    prev.role == row.role && row.createdAt - prev.createdAt <= GROUPING_GAP_SECS
  }

  // compute_grouping on the whole list; the first row keeps its mark.
  function Grouped(rows: seq<Row>): (r: seq<Row>)
    ensures |r| == |rows|
    ensures forall i :: 0 <= i < |rows| ==>
              r[i] == if i == 0 then rows[0] else rows[i].(grouped := Groups(rows[i - 1], rows[i]))
  {
    seq(|rows|, i requires 0 <= i < |rows| =>
      if i == 0 then rows[0] else rows[i].(grouped := Groups(rows[i - 1], rows[i])))
  }

  function Tokens(o: Option<int>): int { if o.Some? then o.value else 0 }

  function SumInput(rows: seq<Row>): int {
    if rows == [] then 0 else SumInput(rows[..|rows| - 1]) + Tokens(rows[|rows| - 1].inputTokens)
  }

  function SumOutput(rows: seq<Row>): int {
    if rows == [] then 0 else SumOutput(rows[..|rows| - 1]) + Tokens(rows[|rows| - 1].outputTokens)
  }

  lemma SumsPush(rows: seq<Row>, row: Row)
    ensures SumInput(rows + [row]) == SumInput(rows) + Tokens(row.inputTokens)
    ensures SumOutput(rows + [row]) == SumOutput(rows) + Tokens(row.outputTokens)
  {
    assert (rows + [row])[..|rows|] == rows;
  }

  method ComputeGrouping(rows: array<Row>)
    modifies rows
    ensures rows[..] == Grouped(old(rows[..]))
  {
    var i := 1;
    while i < rows.Length
      invariant 1 <= i && (rows.Length > 0 ==> i <= rows.Length)
      invariant rows.Length > 0 ==> rows[0] == old(rows[0])
      invariant forall k :: 0 < k < i && k < rows.Length ==>
                  rows[k] == old(rows[k]).(grouped := Groups(old(rows[k - 1]), old(rows[k])))
      invariant forall k :: i <= k < rows.Length ==> rows[k] == old(rows[k])
    {
      rows[i] := rows[i].(grouped := Groups(rows[i - 1], rows[i]));
      i := i + 1;
    }
  }

  // ---------------------------------------------------------------- operations

  function FromData(d: MessageData): Row {
    Row(d.id, d.role, d.text, d.createdAt, Complete, None, None, d.inputTokens, d.outputTokens, false)
  }

  function FromAll(ds: seq<MessageData>): (rows: seq<Row>)
    ensures |rows| == |ds| && forall i :: 0 <= i < |ds| ==> rows[i] == FromData(ds[i])
  {
    seq(|ds|, i requires 0 <= i < |ds| => FromData(ds[i]))
  }

  function FromError(info: string, now: int, partial: Option<string>): Row {
    Row(ERROR_ROW, "error", info, now, RowState.Error, Some(info), partial, None, None, false)
  }

  const THINKING_ROW := Row(PLACEHOLDER, "assistant", "", 0, Thinking, None, None, None, None, false)

  predicate EndsInPlaceholder(rows: seq<Row>) { rows != [] && rows[|rows| - 1].id == PLACEHOLDER }

  function WithoutPlaceholder(rows: seq<Row>): seq<Row> {
    if EndsInPlaceholder(rows) then rows[..|rows| - 1] else rows
  }

  // The message as a row behind the given ones.
  function Behind(rows: seq<Row>, d: MessageData): Row {
    if rows == [] then FromData(d) else FromData(d).(grouped := Groups(rows[|rows| - 1], FromData(d)))
  }

  function Counted(m: Model, row: Row): Model {
    m.(totalInput := m.totalInput + Tokens(row.inputTokens), totalOutput := m.totalOutput + Tokens(row.outputTokens))
  }

  function Completed(m: Model, d: MessageData): Model {
    if !EndsInPlaceholder(m.rows) then m
    else
      var front := m.rows[..|m.rows| - 1];
      Counted(m, Behind(front, d)).(rows := front + [Behind(front, d)])
  }

  function Settled(m: Model): Model { m.(streaming := false, pendingApproval := "") }

  // handle_response; None is the panic of the assertion that a chunk finds the
  // placeholder last.
  function Handle(m: Model, r: Response, now: int): Option<Model> {
    match r
    case MessagesLoaded(ds) =>
      var rows := Grouped(FromAll(ds));
      Some(m.(rows := rows, totalInput := SumInput(rows), totalOutput := SumOutput(rows)))
    case MessageSent(d) => Some(Counted(m, Behind(m.rows, d)).(rows := m.rows + [Behind(m.rows, d)]))
    case StreamingStarted => Some(m.(streaming := true, pendingApproval := "", rows := m.rows + [THINKING_ROW]))
    case StreamingChunk(delta, _) =>
      if m.rows == [] then Some(m)
      else
        var last := m.rows[|m.rows| - 1];
        if last.id != PLACEHOLDER then None
        else Some(m.(rows := m.rows[|m.rows| - 1 := last.(text := last.text + delta, state := StreamingText)]))
    case StreamingComplete(d) => Some(Completed(Settled(m), d))
    case StreamingStopped(d) =>
      if d.Some? then Some(Completed(Settled(m), d.value))
      else Some(Settled(m).(rows := WithoutPlaceholder(m.rows)))
    case ToolApprovalRequired(json) => Some(m.(pendingApproval := if json == "[]" then "" else json))
    case SendMessageError(info) =>
      Some(Settled(m).(rows := WithoutPlaceholder(m.rows) + [FromError(info, now, None)]))
    case StreamingError(info, partial) =>
      Some(Settled(m).(rows := WithoutPlaceholder(m.rows) + [FromError(info, now, Some(partial))]))
  }

  // The list fed with the responses; the clock may say anything at each of them.
  function HandleAll(m: Model, rs: seq<Response>, clock: nat -> int): Option<Model>
    decreases |rs|
  {
    if rs == [] then Some(m)
    else
      match Handle(m, rs[0], clock(|rs|))
      case None => None
      case Some(m') => HandleAll(m', rs[1..], clock)
  }

  // ---------------------------------------------------------------- as it runs

  class MessageListModel {
    var messages: seq<Row>
    var totalInputTokens: int
    var totalOutputTokens: int
    var streaming: bool
    var pendingApproval: string

    ghost function View(): Model reads this {
      Model(messages, totalInputTokens, totalOutputTokens, streaming, pendingApproval)
    }

    constructor ()
      ensures View() == EMPTY_MODEL
    {
      messages, totalInputTokens, totalOutputTokens, streaming, pendingApproval := [], 0, 0, false, "";
    }

    method SetMessages(ds: seq<MessageData>)
      modifies this`messages, this`totalInputTokens, this`totalOutputTokens
      ensures messages == Grouped(FromAll(ds)) && Lists(messages, AllTold(ds))
      ensures totalInputTokens == SumInput(messages) == InputOf(AllTold(ds))
      ensures totalOutputTokens == SumOutput(messages) == OutputOf(AllTold(ds))
    {
      var rows := FromAll(ds);
      var msgs := new Row[|rows|](i requires 0 <= i < |rows| => rows[i]);
      assert msgs[..] == rows;
      ComputeGrouping(msgs);
      messages := msgs[..];
      RecalculateTokenTotals();
      LoadShows(ds);
      SumsShown(messages, AllTold(ds));
    }

    method RecalculateTokenTotals()
      modifies this`totalInputTokens, this`totalOutputTokens
      ensures totalInputTokens == SumInput(messages) && totalOutputTokens == SumOutput(messages)
    {
      totalInputTokens, totalOutputTokens := 0, 0;
      for i := 0 to |messages|
        invariant totalInputTokens == SumInput(messages[..i]) && totalOutputTokens == SumOutput(messages[..i])
      {
        assert messages[..i + 1] == messages[..i] + [messages[i]];
        SumsPush(messages[..i], messages[i]);
        AddToTokenTotals(messages[i]);
      }
      assert messages[..|messages|] == messages;
    }

    method AddToTokenTotals(row: Row)
      modifies this`totalInputTokens, this`totalOutputTokens
      ensures totalInputTokens == old(totalInputTokens) + Tokens(row.inputTokens)
      ensures totalOutputTokens == old(totalOutputTokens) + Tokens(row.outputTokens)
    {
      totalInputTokens := totalInputTokens + Tokens(row.inputTokens);
      totalOutputTokens := totalOutputTokens + Tokens(row.outputTokens);
    }

    method AddMessage(d: MessageData)
      modifies this`messages, this`totalInputTokens, this`totalOutputTokens
      ensures Some(View()) == Handle(old(View()), MessageSent(d), 0)
      ensures forall es :: Displays(old(View()), Idle, es) ==> Displays(View(), Idle, es + [Told(d)])
    {
      ghost var before := View();
      var row := FromData(d);
      if messages != [] {
        row := row.(grouped := Groups(messages[|messages| - 1], row));
      }
      AddToTokenTotals(row);
      messages := messages + [row];
      forall es | Displays(before, Idle, es) ensures Displays(View(), Idle, es + [Told(d)]) {
        BehindDisplays(before, before.rows, es, d);
      }
    }

    // Takes back what a started run put behind the rows: no placeholder is left, and the
    // marks and totals are still those of the rows.
    method RemoveStreamingPlaceholder()
      modifies this`messages
      ensures messages == WithoutPlaceholder(old(messages))
      ensures forall ph :: Consistent(old(View()), ph) ==>
        && Placed(messages, Idle) && WellGrouped(messages)
        && totalInputTokens == SumInput(messages) && totalOutputTokens == SumOutput(messages)
        && old(messages) == messages + (if ph.Running? then [old(messages)[|old(messages)| - 1]] else [])
    {
      ghost var before := View();
      forall ph | Consistent(before, ph) ensures PlaceholderGone(before, ph) { FrontKeeps(before, ph); }
      if messages != [] && messages[|messages| - 1].id == PLACEHOLDER {
        messages := messages[..|messages| - 1];
      }
    }

    method UpdateStreamingMessage(delta: string) returns (ok: bool)
      modifies this`messages
      ensures ok == Handle(old(View()), StreamingChunk(delta, ""), 0).Some?
      ensures View() == if ok then Handle(old(View()), StreamingChunk(delta, ""), 0).value else old(View())
    {
      if messages == [] { return true; }
      var last := messages[|messages| - 1];
      if last.id != PLACEHOLDER { return false; }
      messages := messages[|messages| - 1 := last.(text := last.text + delta, state := StreamingText)];
      return true;
    }

    method CompleteStreamingMessage(d: MessageData)
      modifies this`messages, this`totalInputTokens, this`totalOutputTokens
      ensures View() == Completed(old(View()), d)
      ensures forall es, text :: Displays(old(View()), Running(text), es) ==> Displays(View(), Idle, es + [Told(d)])
    {
      hide FromData, Groups, Tokens, Displays;
      ghost var before := View();
      if EndsInPlaceholder(messages) {
        var n := |messages|;
        ghost var front := messages[..n - 1];
        var row := FromData(d);
        if n >= 2 {
          row := row.(grouped := Groups(messages[n - 2], row));
        }
        assert row == Behind(front, d);
        AddToTokenTotals(row);
        messages := messages[n - 1 := row];
        assert messages == front + [row];
      }
      forall es, text | Displays(before, Running(text), es) ensures Displays(View(), Idle, es + [Told(d)]) {
        CompletedShows(before, es, text, d);
      }
    }

    method AddErrorMessage(info: string, now: int, partial: Option<string>)
      modifies this`messages
      ensures messages == old(messages) + [FromError(info, now, partial)]
    {
      messages := messages + [FromError(info, now, partial)];
    }

    // The model after a response is what the step function says; false stands for the
    // panic, which leaves everything as it was.
    method HandleResponse(response: Response, now: int) returns (ok: bool)
      modifies this
      ensures ok == Handle(old(View()), response, now).Some?
      ensures View() == if ok then Handle(old(View()), response, now).value else old(View())
      ensures forall ph :: Consistent(old(View()), ph) && Follow(ph, response).Some? ==>
        ok && Consistent(View(), Follow(ph, response).value)
      ensures forall ph, es ::
        Consistent(old(View()), ph) && Displays(old(View()), ph, es) && Follow(ph, response).Some? ==>
        Displays(View(), Follow(ph, response).value, Hears(es, response, now))
    {
      hide Completed, Grouped, FromAll, SumInput, SumOutput, Consistent, Follow, WellGrouped, Placed, Displays, Hears;
      ghost var before := View();
      forall ph | Consistent(before, ph) && Follow(ph, response).Some?
        ensures Handle(before, response, now).Some?
        ensures Consistent(Handle(before, response, now).value, Follow(ph, response).value)
      {
        ResponseKeeps(before, ph, response, now);
      }
      forall ph, es | Consistent(before, ph) && Displays(before, ph, es) && Follow(ph, response).Some?
        ensures Handle(before, response, now).Some?
        ensures Displays(Handle(before, response, now).value, Follow(ph, response).value, Hears(es, response, now))
      {
        ResponseShows(before, ph, es, response, now);
      }
      ok := true;
      match response {
        case MessagesLoaded(ds) =>
          SetMessages(ds);
        case MessageSent(d) =>
          AddMessage(d);
        case StreamingStarted =>
          streaming, pendingApproval := true, "";
          messages := messages + [THINKING_ROW];
        case StreamingChunk(delta, _) =>
          ok := UpdateStreamingMessage(delta);
        case StreamingComplete(d) =>
          streaming, pendingApproval := false, "";
          CompleteStreamingMessage(d);
        case StreamingStopped(d) =>
          streaming, pendingApproval := false, "";
          if d.Some? {
            CompleteStreamingMessage(d.value);
          } else {
            RemoveStreamingPlaceholder();
          }
        case ToolApprovalRequired(json) =>
          pendingApproval := if json == "" || json == "[]" then "" else json;
        case SendMessageError(info) =>
          streaming, pendingApproval := false, "";
          RemoveStreamingPlaceholder();
          AddErrorMessage(info, now, None);
        case StreamingError(info, partial) =>
          streaming, pendingApproval := false, "";
          RemoveStreamingPlaceholder();
          AddErrorMessage(info, now, Some(partial));
      }
    }
  }

  // ---------------------------------------------------------------- what stays true

  // Between runs, or inside one that has produced this text so far.
  datatype Phase = Idle | Running(text: string)

  predicate Stored(d: MessageData) { d.id >= 0 }

  // The responses a phase allows, and the phase after them: runs do not overlap, loads
  // and sends fall between them, and a chunk carries the text so far.
  function Follow(ph: Phase, r: Response): Option<Phase> {
    match ph
    case Idle =>
      (match r
       case MessagesLoaded(ds) => if forall d :: d in ds ==> Stored(d) then Some(Idle) else None
       case MessageSent(d) => if Stored(d) then Some(Idle) else None
       case StreamingStarted => Some(Running(""))
       case SendMessageError(_) => Some(Idle)
       case _ => None)
    case Running(text) =>
      (match r
       case StreamingChunk(delta, accumulated) =>
         if accumulated == text + delta then Some(Running(accumulated)) else None
       case ToolApprovalRequired(_) => Some(ph)
       case StreamingComplete(d) => if Stored(d) then Some(Idle) else None
       case StreamingStopped(d) => if d.Some? && !Stored(d.value) then None else Some(Idle)
       case SendMessageError(_) => Some(Idle)
       case StreamingError(_, _) => Some(Idle)
       case _ => None)
  }

  predicate Ordinary(row: Row) { row.id != PLACEHOLDER && row.id != ERROR_ROW }

  // Every ordinary row has the mark a full recompute would give it.
  predicate WellGrouped(rows: seq<Row>) {
    forall i :: 0 <= i < |rows| ==> MarkOk(rows, i)
  }

  predicate MarkOk(rows: seq<Row>, i: int)
    requires 0 <= i < |rows|
  {
    Ordinary(rows[i]) ==> rows[i].grouped == (i > 0 && Groups(rows[i - 1], rows[i]))
  }

  // The placeholder exists exactly during a run, once, last, with the text so far.
  predicate Placed(rows: seq<Row>, ph: Phase) {
    && (forall i :: 0 <= i < |rows| ==>
          (rows[i].id == PLACEHOLDER <==> i == |rows| - 1 && ph.Running?))
    && (ph.Running? ==> rows != [] && Holds(rows[|rows| - 1], ph.text))
  }

  predicate Holds(row: Row, text: string) {
    row.text == text && row.inputTokens == None && row.outputTokens == None
  }

  predicate Consistent(m: Model, ph: Phase) {
    && m.totalInput == SumInput(m.rows) && m.totalOutput == SumOutput(m.rows)
    && WellGrouped(m.rows) && Placed(m.rows, ph)
    && m.streaming == ph.Running?
    && (ph.Idle? ==> m.pendingApproval == "")
  }

  lemma WellGroupedIsRecompute(rows: seq<Row>)
    requires WellGrouped(rows)
    ensures forall i :: 0 <= i < |rows| && Ordinary(rows[i]) ==> rows[i].grouped == Grouped(rows)[i].grouped
  {
    forall i | 0 <= i < |rows| && Ordinary(rows[i]) ensures rows[i].grouped == Grouped(rows)[i].grouped {
      assert MarkOk(rows, i);
    }
  }

  lemma PushKeeps(rows: seq<Row>, row: Row)
    requires WellGrouped(rows)
    requires Ordinary(row) ==> row.grouped == (rows != [] && Groups(rows[|rows| - 1], row))
    ensures WellGrouped(rows + [row])
  {
    var all := rows + [row];
    forall i | 0 <= i < |all| ensures MarkOk(all, i) {
      if i < |rows| { assert MarkOk(rows, i); }
    }
  }

  // Taking the placeholder away leaves a consistent list without one.
  predicate PlaceholderGone(m: Model, ph: Phase) {
    var rows := WithoutPlaceholder(m.rows);
    && WellGrouped(rows) && Placed(rows, Idle)
    && m.totalInput == SumInput(rows) && m.totalOutput == SumOutput(rows)
    && (ph.Running? ==> EndsInPlaceholder(m.rows) && rows == m.rows[..|m.rows| - 1])
    && (ph.Idle? ==> rows == m.rows)
  }

  lemma FrontKeeps(m: Model, ph: Phase)
    requires Consistent(m, ph)
    ensures PlaceholderGone(m, ph)
  {
    if ph.Running? {
      var front, last := m.rows[..|m.rows| - 1], m.rows[|m.rows| - 1];
      assert m.rows == front + [last];
      SumsPush(front, last);
      forall i | 0 <= i < |front| ensures MarkOk(front, i) {
        assert MarkOk(m.rows, i);
      }
    }
  }

  lemma LoadKeeps(m: Model, ds: seq<MessageData>, now: int)
    requires Consistent(m, Idle) && Follow(Idle, MessagesLoaded(ds)) == Some(Idle)
    ensures Consistent(Handle(m, MessagesLoaded(ds), now).value, Idle)
  {
    var rows := Grouped(FromAll(ds));
    forall i | 0 <= i < |rows| ensures rows[i].id >= 0 {
      assert ds[i] in ds;
    }
    forall i | 0 <= i < |rows| ensures MarkOk(rows, i) {}
  }

  // A stored message at the end, where the placeholder was or behind the rows.
  lemma EndKeeps(front: seq<Row>, d: MessageData)
    requires WellGrouped(front) && Placed(front, Idle) && Stored(d)
    ensures WellGrouped(front + [Behind(front, d)]) && Placed(front + [Behind(front, d)], Idle)
  {
    PushKeeps(front, Behind(front, d));
  }

  lemma ErrorKeeps(front: seq<Row>, row: Row)
    requires WellGrouped(front) && Placed(front, Idle) && row.id == ERROR_ROW
    ensures WellGrouped(front + [row]) && Placed(front + [row], Idle)
  {
    PushKeeps(front, row);
  }

  lemma ChunkKeeps(m: Model, text: string, delta: string, now: int)
    requires Consistent(m, Running(text))
    ensures var r := Handle(m, StreamingChunk(delta, text + delta), now);
      r.Some? && Consistent(r.value, Running(text + delta))
  {
    hide WellGrouped, SumInput, SumOutput, Groups;
    var n := |m.rows| - 1;
    var front, last := m.rows[..n], m.rows[n];
    var last' := last.(text := last.text + delta, state := StreamingText);
    assert m.rows == front + [last];
    assert m.rows[n := last'] == front + [last'];
    SumsPush(front, last);
    SumsPush(front, last');
    FrontKeeps(m, Running(text));
    PushKeeps(front, last');
    ReplacedPlaced(front, last, last', text, text + delta);
  }

  lemma ReplacedPlaced(front: seq<Row>, last: Row, last': Row, text: string, text': string)
    requires Placed(front + [last], Running(text))
    requires last'.id == last.id && Holds(last', text')
    ensures Placed(front + [last'], Running(text'))
  {
    forall i | 0 <= i < |front| + 1
      ensures (front + [last'])[i].id == PLACEHOLDER <==> i == |front|
    {
      assert (front + [last])[i].id == (front + [last'])[i].id;
    }
  }

  // Every response the protocol allows is handled without the panic and keeps the list
  // equal to a full recompute.
  lemma ResponseKeeps(m: Model, ph: Phase, r: Response, now: int)
    requires Consistent(m, ph) && Follow(ph, r).Some?
    ensures Handle(m, r, now).Some? && Consistent(Handle(m, r, now).value, Follow(ph, r).value)
  {
    hide WellGrouped, Placed, SumInput, SumOutput, Groups;
    FrontKeeps(m, ph);
    var front := WithoutPlaceholder(m.rows);
    match r {
      case MessagesLoaded(ds) => LoadKeeps(m, ds, now);
      case MessageSent(d) =>
        EndKeeps(front, d);
        SumsPush(front, Behind(front, d));
      case StreamingStarted => StartKeeps(m);
      case StreamingChunk(delta, accumulated) => ChunkKeeps(m, ph.text, delta, now);
      case StreamingComplete(d) =>
        EndKeeps(front, d);
        SumsPush(front, Behind(front, d));
      case StreamingStopped(d) =>
        if d.Some? {
          EndKeeps(front, d.value);
          SumsPush(front, Behind(front, d.value));
        }
      case ToolApprovalRequired(_) =>
      case SendMessageError(info) =>
        ErrorKeeps(front, FromError(info, now, None));
        SumsPush(front, FromError(info, now, None));
      case StreamingError(info, partial) =>
        ErrorKeeps(front, FromError(info, now, Some(partial)));
        SumsPush(front, FromError(info, now, Some(partial)));
    }
  }

  lemma StartKeeps(m: Model)
    requires Consistent(m, Idle)
    ensures Consistent(m.(streaming := true, pendingApproval := "", rows := m.rows + [THINKING_ROW]), Running(""))
  {
    PushKeeps(m.rows, THINKING_ROW);
    SumsPush(m.rows, THINKING_ROW);
  }

  // ---------------------------------------------------------------- what the rows are about

  // What the list was told: a message, or an error with the time it came and, from a
  // broken run, the text so far.
  datatype Entry = Told(message: MessageData) | Failed(info: string, at: int, partial: Option<string>)

  function AllTold(ds: seq<MessageData>): (es: seq<Entry>)
    ensures |es| == |ds|
  {
    seq(|ds|, i requires 0 <= i < |ds| => Told(ds[i]))
  }

  // A load starts over; sends, replies and errors come behind.
  function Hears(es: seq<Entry>, r: Response, now: int): seq<Entry> {
    match r
    case MessagesLoaded(ds) => AllTold(ds)
    case MessageSent(d) => es + [Told(d)]
    case StreamingComplete(d) => es + [Told(d)]
    case StreamingStopped(d) => if d.Some? then es + [Told(d.value)] else es
    case SendMessageError(info) => es + [Failed(info, now, None)]
    case StreamingError(info, partial) => es + [Failed(info, now, Some(partial))]
    case _ => es
  }

  predicate Shows(row: Row, e: Entry) {
    match e
    case Told(d) =>
      && row.id == d.id && row.role == d.role && row.text == d.text && row.createdAt == d.createdAt
      && row.inputTokens == d.inputTokens && row.outputTokens == d.outputTokens
      && row.state == Complete && row.error == None && row.partialContent == None
    case Failed(info, at, partial) =>
      && row.id == -2 && row.role == "error" && row.text == info && row.createdAt == at
      && row.inputTokens == None && row.outputTokens == None
      && row.state == RowState.Error && row.error == Some(info) && row.partialContent == partial
  }

  // The row of a run that has produced this text.
  predicate Shadows(row: Row, text: string) {
    && row.id == -1 && row.role == "assistant" && row.text == text
    && row.inputTokens == None && row.outputTokens == None && row.error == None && row.partialContent == None
    && (row.state == StreamingText || (row.state == Thinking && text == ""))
  }

  function RoleOf(e: Entry): string { if e.Told? then e.message.role else "error" }
  function TimeOf(e: Entry): int { if e.Told? then e.message.createdAt else e.at }

  // A message joins its predecessor of the same role within five minutes.
  predicate Joins(es: seq<Entry>, k: nat)
    requires k < |es|
  {
    es[k].Told? && k > 0 && RoleOf(es[k - 1]) == RoleOf(es[k]) && TimeOf(es[k]) - TimeOf(es[k - 1]) <= 300
  }

  function InputOf(es: seq<Entry>): int {
    if es == [] then 0
    else
      var last := es[|es| - 1];
      InputOf(es[..|es| - 1])
      + (if last.Told? && last.message.inputTokens.Some? then last.message.inputTokens.value else 0)
  }

  function OutputOf(es: seq<Entry>): int {
    if es == [] then 0
    else
      var last := es[|es| - 1];
      OutputOf(es[..|es| - 1])
      + (if last.Told? && last.message.outputTokens.Some? then last.message.outputTokens.value else 0)
  }

  predicate Lists(rows: seq<Row>, es: seq<Entry>) {
    && |rows| == |es|
    && forall k :: 0 <= k < |es| ==> Shows(rows[k], es[k]) && rows[k].grouped == Joins(es, k)
  }

  // The list shows what it was told, in order, and the run's row behind.
  predicate Displays(m: Model, ph: Phase, es: seq<Entry>) {
    && (ph.Idle? ==> Lists(m.rows, es))
    && (ph.Running? ==>
          m.rows != [] && Lists(m.rows[..|m.rows| - 1], es) && Shadows(m.rows[|m.rows| - 1], ph.text))
    && m.totalInput == InputOf(es) && m.totalOutput == OutputOf(es)
  }

  lemma {:induction false} SumsShown(rows: seq<Row>, es: seq<Entry>)
    requires Lists(rows, es)
    ensures SumInput(rows) == InputOf(es) && SumOutput(rows) == OutputOf(es)
  {
    if rows != [] {
      var front, before := rows[..|rows| - 1], es[..|es| - 1];
      forall k | 0 <= k < |before| ensures Shows(front[k], before[k]) && front[k].grouped == Joins(before, k) {
        assert Shows(rows[k], es[k]) && rows[k].grouped == Joins(es, k);
      }
      SumsShown(front, before);
      assert Shows(rows[|front|], es[|front|]);
    }
  }

  lemma ListsPush(rows: seq<Row>, es: seq<Entry>, row: Row, e: Entry)
    requires Lists(rows, es) && Shows(row, e) && row.grouped == Joins(es + [e], |es|)
    ensures Lists(rows + [row], es + [e])
  {
    forall k | 0 <= k < |es| + 1
      ensures Shows((rows + [row])[k], (es + [e])[k]) && (rows + [row])[k].grouped == Joins(es + [e], k)
    {
      if k < |es| { assert Shows(rows[k], es[k]) && rows[k].grouped == Joins(es, k); }
    }
  }

  lemma BehindShows(rows: seq<Row>, es: seq<Entry>, d: MessageData)
    requires Lists(rows, es)
    ensures Lists(rows + [Behind(rows, d)], es + [Told(d)])
  {
    if rows != [] { assert Shows(rows[|rows| - 1], es[|es| - 1]); }
    ListsPush(rows, es, Behind(rows, d), Told(d));
  }

  lemma ErrorShows(rows: seq<Row>, es: seq<Entry>, info: string, now: int, partial: Option<string>)
    requires Lists(rows, es)
    ensures Lists(rows + [FromError(info, now, partial)], es + [Failed(info, now, partial)])
  {
    ListsPush(rows, es, FromError(info, now, partial), Failed(info, now, partial));
  }

  lemma LoadShows(ds: seq<MessageData>)
    ensures Lists(Grouped(FromAll(ds)), AllTold(ds))
  {
    var rows, es := Grouped(FromAll(ds)), AllTold(ds);
    forall k | 0 <= k < |es| ensures Shows(rows[k], es[k]) && rows[k].grouped == Joins(es, k) {
      if k > 0 { assert rows[k].grouped == Groups(FromData(ds[k - 1]), FromData(ds[k])); }
    }
  }

  // What the rows list once the response is in, whatever follows from it for the totals.
  lemma RowsShow(m: Model, ph: Phase, es: seq<Entry>, r: Response, now: int)
    requires Consistent(m, ph) && Displays(m, ph, es) && Follow(ph, r).Some? && Handle(m, r, now).Some?
    ensures var rows, ph' := Handle(m, r, now).value.rows, Follow(ph, r).value;
      && (ph'.Idle? ==> Lists(rows, Hears(es, r, now)))
      && (ph'.Running? ==> rows != [] && Lists(rows[..|rows| - 1], Hears(es, r, now))
                           && Shadows(rows[|rows| - 1], ph'.text))
  {
    hide Lists, SumInput, SumOutput, InputOf, OutputOf, WellGrouped, Groups, Placed, Grouped, FromAll;
    FrontKeeps(m, ph);
    var front := WithoutPlaceholder(m.rows);
    match r {
      case MessagesLoaded(ds) => LoadShows(ds);
      case MessageSent(d) => BehindShows(front, es, d);
      case StreamingStarted => assert (m.rows + [THINKING_ROW])[..|m.rows|] == m.rows;
      case StreamingChunk(delta, accumulated) =>
        assert Handle(m, r, now).value.rows[..|m.rows| - 1] == front;
      case StreamingComplete(d) => BehindShows(front, es, d);
      case StreamingStopped(d) => if d.Some? { BehindShows(front, es, d.value); }
      case ToolApprovalRequired(_) =>
      case SendMessageError(info) => ErrorShows(front, es, info, now, None);
      case StreamingError(info, partial) => ErrorShows(front, es, info, now, Some(partial));
    }
  }

  lemma EntriesPush(es: seq<Entry>, d: MessageData)
    ensures InputOf(es + [Told(d)]) == InputOf(es) + (if d.inputTokens.Some? then d.inputTokens.value else 0)
    ensures OutputOf(es + [Told(d)]) == OutputOf(es) + (if d.outputTokens.Some? then d.outputTokens.value else 0)
  {
    assert (es + [Told(d)])[..|es|] == es;
  }

  lemma BehindDisplays(m: Model, front: seq<Row>, es: seq<Entry>, d: MessageData)
    requires Lists(front, es) && m.totalInput == InputOf(es) && m.totalOutput == OutputOf(es)
    ensures Displays(Counted(m, Behind(front, d)).(rows := front + [Behind(front, d)]), Idle, es + [Told(d)])
  {
    BehindShows(front, es, d);
    EntriesPush(es, d);
  }

  lemma CompletedShows(m: Model, es: seq<Entry>, text: string, d: MessageData)
    requires Displays(m, Running(text), es)
    ensures Displays(Completed(m, d), Idle, es + [Told(d)])
  {
    hide Lists, InputOf, OutputOf;
    BehindDisplays(m, m.rows[..|m.rows| - 1], es, d);
  }

  // Every response the protocol allows leaves a list that shows what it was told: the
  // messages' and errors' own fields in their order, the marks their roles and times
  // give, the sums of the messages' tokens.
  lemma ResponseShows(m: Model, ph: Phase, es: seq<Entry>, r: Response, now: int)
    requires Consistent(m, ph) && Displays(m, ph, es) && Follow(ph, r).Some?
    ensures Handle(m, r, now).Some?
    ensures Displays(Handle(m, r, now).value, Follow(ph, r).value, Hears(es, r, now))
  {
    hide Handle, Follow, Hears, Lists, InputOf, OutputOf, WellGrouped, Placed, Shadows;
    ResponseKeeps(m, ph, r, now);
    RowsShow(m, ph, es, r, now);
    var m', ph', es' := Handle(m, r, now).value, Follow(ph, r).value, Hears(es, r, now);
    if ph'.Running? {
      var n := |m'.rows| - 1;
      SumsShown(m'.rows[..n], es');
      assert m'.rows == m'.rows[..n] + [m'.rows[n]];
      SumsPush(m'.rows[..n], m'.rows[n]);
      NoTokens(m'.rows[n], ph'.text);
    } else {
      SumsShown(m'.rows, es');
    }
  }

  lemma NoTokens(row: Row, text: string)
    requires Shadows(row, text)
    ensures Tokens(row.inputTokens) == 0 && Tokens(row.outputTokens) == 0
  {}

  // ---------------------------------------------------------------- outside the protocol

  // Where a chunk panics: some row is last, and it is not the placeholder.
  predicate Panics(rows: seq<Row>) { rows != [] && !EndsInPlaceholder(rows) }

  predicate StoredOnly(r: Response) {
    match r
    case MessagesLoaded(ds) => forall d :: d in ds ==> Stored(d)
    case MessageSent(d) => Stored(d)
    case StreamingComplete(d) => Stored(d)
    case StreamingStopped(d) => d.Some? ==> Stored(d.value)
    case _ => true
  }

  // The responses that, arriving inside a run, leave a list whose last row is not the
  // placeholder.
  predicate Displaces(r: Response, rows: seq<Row>) {
    match r
    case MessagesLoaded(ds) => ds != []
    case MessageSent(_) => true
    case StreamingComplete(_) => true
    case StreamingStopped(d) => d.Some? || |rows| > 1
    case SendMessageError(_) => true
    case StreamingError(_, _) => true
    case _ => false
  }

  // Exactly those responses, arriving inside a run, make the run's next chunk panic; in
  // particular the rejection of a second send does.
  lemma NextChunkPanics(m: Model, text: string, r: Response, delta: string, now: int)
    requires Consistent(m, Running(text)) && StoredOnly(r)
    ensures Handle(m, r, now).Some?
    ensures Handle(Handle(m, r, now).value, StreamingChunk(delta, text + delta), now).None?
       <==> Displaces(r, m.rows)
  {
    hide WellGrouped, SumInput, SumOutput, Groups;
    var n := |m.rows| - 1;
    assert m.rows[n].id == PLACEHOLDER;
    assert Handle(m, r, now).Some?;
    assert Panics(Handle(m, r, now).value.rows) <==> Displaces(r, m.rows) by {
      hide Placed, Grouped, FromAll;
      match r {
        case MessagesLoaded(ds) =>
          if ds != [] { assert ds[|ds| - 1] in ds; }
        case StreamingStopped(d) =>
          if d.None? && n > 0 { SecondLast(m, text); }
        case _ =>
      }
    }
  }

  lemma SecondLast(m: Model, text: string)
    requires Placed(m.rows, Running(text)) && |m.rows| > 1
    ensures m.rows[|m.rows| - 2].id != PLACEHOLDER
  {}

  // The case in numbers: a run is going, a second send is rejected, the next chunk of
  // the run finds the error row.
  lemma RejectedSendBreaksTheRun(info: string, now: int)
    ensures var started := Handle(EMPTY_MODEL, StreamingStarted, now).value;
      && Consistent(started, Running(""))
      && Handle(started, StreamingChunk("a", "a"), now).Some?
      && Handle(Handle(started, SendMessageError(info), now).value, StreamingChunk("a", "a"), now).None?
  {
    StartKeeps(EMPTY_MODEL);
  }

  // ---------------------------------------------------------------- any responses at all

  // What becomes of a chunk: it panics on another row, finds no row and is dropped, or
  // extends the placeholder it finds last.
  datatype Fate = Panic | Drop | Extend

  // Which rows are placeholders.
  function Marks(rows: seq<Row>): seq<bool> {
    seq(|rows|, i requires 0 <= i < |rows| => rows[i].id == PLACEHOLDER)
  }

  function FateOf(marks: seq<bool>): Fate {
    if marks == [] then Drop else if marks[|marks| - 1] then Extend else Panic
  }

  // A placeholder at the end goes, or makes room for a row.
  function Popped(marks: seq<bool>): seq<bool> { if FateOf(marks) == Extend then marks[..|marks| - 1] else marks }

  function Filled(marks: seq<bool>, d: MessageData): seq<bool> {
    if FateOf(marks) == Extend then marks[..|marks| - 1] + [d.id == PLACEHOLDER] else marks
  }

  // What one response does to the marks; None where it is a chunk that panics.
  function MarkStep(marks: seq<bool>, r: Response): Option<seq<bool>> {
    match r
    case MessagesLoaded(ds) => Some(seq(|ds|, i requires 0 <= i < |ds| => ds[i].id == PLACEHOLDER))
    case MessageSent(d) => Some(marks + [d.id == PLACEHOLDER])
    case StreamingStarted => Some(marks + [true])
    case StreamingChunk(_, _) => if FateOf(marks) == Panic then None else Some(marks)
    case StreamingComplete(d) => Some(Filled(marks, d))
    case StreamingStopped(d) => Some(if d.Some? then Filled(marks, d.value) else Popped(marks))
    case ToolApprovalRequired(_) => Some(marks)
    case SendMessageError(_) => Some(Popped(marks) + [false])
    case StreamingError(_, _) => Some(Popped(marks) + [false])
  }

  function MarkAll(marks: seq<bool>, rs: seq<Response>): Option<seq<bool>>
    decreases |rs|
  {
    if rs == [] then Some(marks)
    else
      match MarkStep(marks, rs[0])
      case None => None
      case Some(marks') => MarkAll(marks', rs[1..])
  }

  lemma MarksPush(rows: seq<Row>, row: Row)
    ensures Marks(rows + [row]) == Marks(rows) + [row.id == PLACEHOLDER]
  {}

  lemma MarksFront(rows: seq<Row>)
    ensures FateOf(Marks(rows)) == Extend <==> EndsInPlaceholder(rows)
    ensures Marks(WithoutPlaceholder(rows)) == Popped(Marks(rows))
  {}

  lemma MarksFollowStep(m: Model, r: Response, now: int)
    ensures Handle(m, r, now).Some? <==> MarkStep(Marks(m.rows), r).Some?
    ensures Handle(m, r, now).Some? ==> MarkStep(Marks(m.rows), r) == Some(Marks(Handle(m, r, now).value.rows))
  {
    hide Marks, SumInput, SumOutput, Groups, FateOf;
    MarksFront(m.rows);
    var front := WithoutPlaceholder(m.rows);
    match r {
      case MessagesLoaded(ds) => LoadedMarks(ds);
      case MessageSent(d) => MarksPush(m.rows, Behind(m.rows, d));
      case StreamingStarted => MarksPush(m.rows, THINKING_ROW);
      case StreamingChunk(delta, _) => ChunkMarks(m, r, now);
      case StreamingComplete(d) => MarksPush(front, Behind(front, d));
      case StreamingStopped(d) => if d.Some? { MarksPush(front, Behind(front, d.value)); }
      case ToolApprovalRequired(_) =>
      case SendMessageError(info) => MarksPush(front, FromError(info, now, None));
      case StreamingError(info, partial) => MarksPush(front, FromError(info, now, Some(partial)));
    }
  }

  lemma LoadedMarks(ds: seq<MessageData>)
    ensures Marks(Grouped(FromAll(ds))) == seq(|ds|, i requires 0 <= i < |ds| => ds[i].id == PLACEHOLDER)
  {}

  lemma ChunkMarks(m: Model, r: Response, now: int)
    requires r.StreamingChunk?
    ensures Handle(m, r, now).Some? <==> FateOf(Marks(m.rows)) != Panic
    ensures Handle(m, r, now).Some? ==> Marks(Handle(m, r, now).value.rows) == Marks(m.rows)
  {}

  lemma {:induction false} MarksFollow(m: Model, rs: seq<Response>, clock: nat -> int)
    ensures HandleAll(m, rs, clock).Some? <==> MarkAll(Marks(m.rows), rs).Some?
    ensures HandleAll(m, rs, clock).Some? ==>
      MarkAll(Marks(m.rows), rs) == Some(Marks(HandleAll(m, rs, clock).value.rows))
    decreases |rs|
  {
    hide Handle, MarkStep, Marks;
    if rs != [] {
      MarksFollowStep(m, rs[0], clock(|rs|));
      if Handle(m, rs[0], clock(|rs|)).Some? {
        MarksFollow(Handle(m, rs[0], clock(|rs|)).value, rs[1..], clock);
      }
    }
  }

  // The marks of a list inside a run.
  function OneRun(rows: nat): seq<bool>
    requires rows > 0
  {
    seq(rows, i => i == rows - 1)
  }

  // A chunk meets this fate.
  predicate Meets(m: Model, delta: string, next: Option<Model>, fate: Fate) {
    match fate
    case Panic => next == None
    case Drop => next == Some(m)
    case Extend =>
      m.rows != [] &&
      (var n := |m.rows| - 1;
       next == Some(m.(rows := m.rows[n := m.rows[n].(text := m.rows[n].text + delta, state := StreamingText)])))
  }

  // Inside a run, whatever responses come in whatever order: they are handled without the
  // panic exactly when no chunk among them is fated to it, and the next chunk panics, is
  // dropped, or extends the last placeholder, by its fate and nothing else.
  lemma NextChunk(m: Model, text: string, rs: seq<Response>, delta: string, accumulated: string,
                  clock: nat -> int, now: int)
    requires Consistent(m, Running(text))
    ensures m.rows != []
    ensures var marks, after := MarkAll(OneRun(|m.rows|), rs), HandleAll(m, rs, clock);
      && (after.Some? <==> marks.Some?)
      && (after.Some? ==>
            var next := Handle(after.value, StreamingChunk(delta, accumulated), now);
            Meets(after.value, delta, next, FateOf(marks.value)))
  {
    hide Consistent, MarkAll, HandleAll, Handle, FateOf, Meets;
    RunningMarks(m, text);
    MarksFollow(m, rs, clock);
    if HandleAll(m, rs, clock).Some? {
      ChunkMeets(HandleAll(m, rs, clock).value, delta, accumulated, now);
    }
  }

  lemma RunningMarks(m: Model, text: string)
    requires Consistent(m, Running(text))
    ensures m.rows != [] && Marks(m.rows) == OneRun(|m.rows|)
  {}

  lemma ChunkMeets(m: Model, delta: string, accumulated: string, now: int)
    ensures Meets(m, delta, Handle(m, StreamingChunk(delta, accumulated), now), FateOf(Marks(m.rows)))
  {}

  // Two sends in quick succession both pass the guard. The second run's placeholder takes
  // the first run's text, and when the second is turned away the next chunk panics.
  lemma TwoQuickSends(first: MessageData, second: MessageData, error: string, clock: nat -> int, now: int)
    requires Stored(first) && Stored(second)
    ensures var rs := [MessageSent(first), StreamingStarted, MessageSent(second), StreamingStarted];
      var both := HandleAll(EMPTY_MODEL, rs, clock);
      var refused := HandleAll(EMPTY_MODEL, rs + [StreamingError(error, "")], clock);
      && both.Some? && Meets(both.value, "a", Handle(both.value, StreamingChunk("a", "a"), now), Extend)
      && refused.Some? && Handle(refused.value, StreamingChunk("b", "ab"), now) == None
  {
    hide HandleAll, Handle, Meets;
    var rs := [MessageSent(first), StreamingStarted, MessageSent(second), StreamingStarted];
    var more := rs + [StreamingError(error, "")];
    MarksFollow(EMPTY_MODEL, rs, clock);
    MarksFollow(EMPTY_MODEL, more, clock);
    QuickMarks(first, second, error);
    ChunkMeets(HandleAll(EMPTY_MODEL, rs, clock).value, "a", "a", now);
    ChunkMeets(HandleAll(EMPTY_MODEL, more, clock).value, "b", "ab", now);
    var refused := HandleAll(EMPTY_MODEL, more, clock).value;
    FatedToPanic(refused, Handle(refused, StreamingChunk("b", "ab"), now));
  }

  lemma FatedToPanic(m: Model, next: Option<Model>)
    ensures Meets(m, "b", next, Panic) ==> next == None
  {}

  lemma MarkNext(marks: seq<bool>, r: Response, rest: seq<Response>)
    ensures MarkAll(marks, [r] + rest)
         == match MarkStep(marks, r) case None => None case Some(marks') => MarkAll(marks', rest)
  {
    assert ([r] + rest)[1..] == rest;
  }

  lemma QuickMarks(first: MessageData, second: MessageData, error: string)
    requires Stored(first) && Stored(second)
    ensures Marks(EMPTY_MODEL.rows) == []
    ensures var rs := [MessageSent(first), StreamingStarted, MessageSent(second), StreamingStarted];
      && MarkAll([], rs) == Some([false, true, false, true])
      && MarkAll([], rs + [StreamingError(error, "")]) == Some([false, true, false, false])
  {
    BothSent(first, second, []);
    BothSent(first, second, [StreamingError(error, "")]);
    var rs := [MessageSent(first), StreamingStarted, MessageSent(second), StreamingStarted];
    assert rs + [] == rs;
    var marks := [false, true, false, true];
    assert [StreamingError(error, "")] + [] == [StreamingError(error, "")];
    MarkNext(marks, StreamingError(error, ""), []);
    assert marks[..3] + [false] == [false, true, false, false];
  }

  lemma BothSent(first: MessageData, second: MessageData, rest: seq<Response>)
    requires Stored(first) && Stored(second)
    ensures MarkAll([], [MessageSent(first), StreamingStarted, MessageSent(second), StreamingStarted] + rest)
         == MarkAll([false, true, false, true], rest)
  {
    hide MarkAll;
    var a, b, c, d := MessageSent(first), StreamingStarted, MessageSent(second), StreamingStarted;
    assert [a, b, c, d] + rest == [a] + ([b] + ([c] + ([d] + rest)));
    MarkNext([], a, [b] + ([c] + ([d] + rest)));
    MarkNext([false], b, [c] + ([d] + rest));
    MarkNext([false, true], c, [d] + rest);
    MarkNext([false, true, false], d, rest);
    assert [] + [false] == [false] && [false] + [true] == [false, true];
    assert [false, true] + [false] == [false, true, false];
    assert [false, true, false] + [true] == [false, true, false, true];
  }

  // A load of nothing inside a run: the next chunk finds no row, and its text is gone.
  lemma EmptyLoadDropsText(m: Model, text: string, delta: string, clock: nat -> int, now: int)
    requires Consistent(m, Running(text))
    ensures var after := HandleAll(m, [MessagesLoaded([])], clock);
      after.Some? && Handle(after.value, StreamingChunk(delta, text + delta), now) == after
  {
    assert [MessagesLoaded([])][1..] == [];
  }
}
