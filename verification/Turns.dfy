/** Folding the items of a Responses request into conversation turns: the items of one
    assistant turn share one message, everything else is a boundary. */
module Turns {
  import opened Options
  import opened Text

  datatype Role = System | User | Assistant | Tool

  datatype Block =
    | TextBlock(text: string)
    | CallBlock(callId: string, name: string, args: string)
    | ResultBlock(callId: string, text: string)
    | ThinkingBlock(text: string, signature: string, sealed: string, id: string)
    | RedactedBlock(data: string)
    | MediaBlock(source: string)
    | NoticeBlock(count: nat)
    | UnknownBlock(kind: string)

  datatype Message = Message(role: Role, blocks: seq<Block>)

  /** One input item, its content decoded: what an unlabelled or user message keeps may
      be nothing, and a tool's output is text with media apart. */
  datatype Item =
    | AssistantItem(text: string)
    | SystemItem(text: string)
    | UserItem(blocks: seq<Block>)
    | FunctionCall(callId: string, name: string, args: string)
    | ShellCall(callId: string, args: string)
    | CustomCall(callId: string, name: string, args: string)
    | CallOutput(callId: string, text: string, media: seq<Block>)
    | Reasoning(id: string, summary: string, encrypted: string)
    | OtherItem(kind: string)

  const LOCAL_SHELL := "local_shell"

  predicate AssistantSide(item: Item) {
    item.AssistantItem? || item.FunctionCall? || item.ShellCall? || item.CustomCall? || item.Reasoning?
  }

  /** What an assistant item adds to its turn; empty reasoning adds nothing. */
  function BlocksOf(item: Item): seq<Block> {
    match item
    case AssistantItem(text) => [TextBlock(text)]
    case FunctionCall(id, name, args) => [CallBlock(id, name, if Trim(args) == "" then "{}" else args)]
    case ShellCall(id, args) => [CallBlock(id, LOCAL_SHELL, args)]
    case CustomCall(id, name, args) => [CallBlock(id, name, args)]
    case Reasoning(id, summary, encrypted) =>
      if summary == "" && encrypted == "" then [] else [ThinkingBlock(summary, "", encrypted, id)]
    case _ => []
  }

  /** The messages a boundary stands for; a user item without usable content has none. */
  function MessagesOf(item: Item): seq<Message> {
    match item
    case SystemItem(text) => [Message(System, [TextBlock(text)])]
    case UserItem(blocks) => if blocks == [] then [] else [Message(User, blocks)]
    case CallOutput(id, text, media) =>
      (if text != "" || media == [] then [Message(Tool, [ResultBlock(id, text)])] else [])
      + (if media == [] then [] else [Message(User, [NoticeBlock(|media|)] + media)])
    case OtherItem(kind) => [Message(User, [UnknownBlock(kind)])]
    case _ => []
  }

  datatype Fold = Fold(messages: seq<Message>, pending: Option<seq<Block>>)

  function Flushed(f: Fold): seq<Message> {
    if f.pending.Some? && f.pending.value != [] then f.messages + [Message(Assistant, f.pending.value)] else f.messages
  }

  function Add(f: Fold, item: Item): Fold {
    if AssistantSide(item)
    then if BlocksOf(item) == [] then f else f.(pending := Some(f.pending.GetOr([]) + BlocksOf(item)))
    else Fold(Flushed(f) + MessagesOf(item), None)
  }

  function FoldAll(items: seq<Item>): Fold {
    if items == [] then Fold([], None) else Add(FoldAll(items[..|items| - 1]), items[|items| - 1])
  }

  function Converted(items: seq<Item>): seq<Message> {
    Flushed(FoldAll(items))
  }

  class ChatRequest {
    var messages: seq<Message>
    var pending: Option<seq<Block>>

    constructor ()
      ensures messages == [] && pending == None
    {
      messages, pending := [], None;
    }

    method Flush()
      modifies this
      ensures messages == Flushed(Fold(old(messages), old(pending))) && pending == None
    {
      if pending.Some? && |pending.value| > 0 {
        messages := messages + [Message(Assistant, pending.value)];
      }
      pending := None;
    }

    method AddAssistant(blocks: seq<Block>)
      modifies this`pending
      ensures pending == if blocks == [] then old(pending) else Some(old(pending).GetOr([]) + blocks)
    {
      if |blocks| == 0 {
        return;
      }
      if pending.None? {
        pending := Some([]);
      }
      pending := Some(pending.value + blocks);
    }

    method ToRosetta(items: seq<Item>)
      requires messages == [] && pending == None
      modifies this
      ensures messages == Converted(items)
    {
      for i := 0 to |items|
        invariant Fold(messages, pending) == FoldAll(items[..i])
      {
        assert items[..i + 1][..i] == items[..i];
        AddItem(items[i]);
      }
      assert items[..|items|] == items;
      Flush();
    }

    method AddItem(item: Item)
      modifies this
      ensures Fold(messages, pending) == Add(old(Fold(messages, pending)), item)
    {
      match item
      case AssistantItem(text) => AddAssistant([TextBlock(text)]);
      case FunctionCall(id, name, args) => AddAssistant([CallBlock(id, name, if Trim(args) == "" then "{}" else args)]);
      case ShellCall(id, args) => AddAssistant([CallBlock(id, LOCAL_SHELL, args)]);
      case CustomCall(id, name, args) => AddAssistant([CallBlock(id, name, args)]);
      case Reasoning(id, summary, encrypted) =>
        if summary != "" || encrypted != "" {
          AddAssistant([ThinkingBlock(summary, "", encrypted, id)]);
        }
      case CallOutput(id, text, media) =>
        Flush();
        if text != "" || |media| == 0 {
          messages := messages + [Message(Tool, [ResultBlock(id, text)])];
        }
        if |media| > 0 {
          messages := messages + [Message(User, [NoticeBlock(|media|)] + media)];
        }
      case _ =>
        Flush();
        messages := messages + MessagesOf(item);
    }
  }

  // ----- every contribution, in order -----

  datatype Piece = Piece(role: Role, block: Block)

  function PiecesOf(m: Message): seq<Piece> {
    seq(|m.blocks|, i requires 0 <= i < |m.blocks| => Piece(m.role, m.blocks[i]))
  }

  function Pieces(ms: seq<Message>): seq<Piece> {
    if ms == [] then [] else Pieces(ms[..|ms| - 1]) + PiecesOf(ms[|ms| - 1])
  }

  function Told(role: Role, blocks: seq<Block>): seq<Piece> {
    seq(|blocks|, i requires 0 <= i < |blocks| => Piece(role, blocks[i]))
  }

  /** What an item contributes, kind by kind. */
  function SaidBy(item: Item): seq<Piece> {
    match item
    case AssistantItem(text) => [Piece(Assistant, TextBlock(text))]
    case SystemItem(text) => [Piece(System, TextBlock(text))]
    case UserItem(blocks) => Told(User, blocks)
    case FunctionCall(id, name, args) => [Piece(Assistant, CallBlock(id, name, if Trim(args) != "" then args else "{}"))]
    case ShellCall(id, args) => [Piece(Assistant, CallBlock(id, "local_shell", args))]
    case CustomCall(id, name, args) => [Piece(Assistant, CallBlock(id, name, args))]
    case CallOutput(id, text, media) =>
      if media == [] then [Piece(Tool, ResultBlock(id, text))]
      else (if text == "" then [] else [Piece(Tool, ResultBlock(id, text))])
           + [Piece(User, NoticeBlock(|media|))] + Told(User, media)
    case Reasoning(id, summary, encrypted) =>
      if summary != "" || encrypted != "" then [Piece(Assistant, ThinkingBlock(summary, "", encrypted, id))] else []
    case OtherItem(kind) => [Piece(User, UnknownBlock(kind))]
  }

  lemma ToldOne(m: Message)
    ensures Pieces([m]) == Told(m.role, m.blocks)
  {
    PiecesOne([], m);
    assert [] + [m] == [m] && [] + PiecesOf(m) == PiecesOf(m);
  }

  lemma ToldTwo(m: Message, n: Message)
    ensures Pieces([m, n]) == Told(m.role, m.blocks) + Told(n.role, n.blocks)
  {
    ToldOne(m);
    PiecesOne([m], n);
    assert [m] + [n] == [m, n];
  }

  lemma OutputIsFolded(id: string, text: string, media: seq<Block>)
    ensures SaidBy(CallOutput(id, text, media)) == Pieces(MessagesOf(CallOutput(id, text, media)))
  {
    var result, notice := Message(Tool, [ResultBlock(id, text)]), Message(User, [NoticeBlock(|media|)] + media);
    assert Told(User, notice.blocks) == [Piece(User, NoticeBlock(|media|))] + Told(User, media);
    if media == [] {
      ToldOne(result);
      assert MessagesOf(CallOutput(id, text, media)) == [result];
    } else if text == "" {
      ToldOne(notice);
      assert MessagesOf(CallOutput(id, text, media)) == [notice];
      assert [] + [Piece(User, NoticeBlock(|media|))] + Told(User, media) == Told(User, notice.blocks);
    } else {
      ToldTwo(result, notice);
      assert MessagesOf(CallOutput(id, text, media)) == [result, notice];
      Associative([Piece(Tool, ResultBlock(id, text))], [Piece(User, NoticeBlock(|media|))], Told(User, media));
      assert Told(Tool, result.blocks) == [Piece(Tool, ResultBlock(id, text))];
    }
  }

  lemma SaidIsFolded(item: Item)
    ensures SaidBy(item)
            == if AssistantSide(item) then PiecesOf(Message(Assistant, BlocksOf(item))) else Pieces(MessagesOf(item))
  {
    if item.CallOutput? {
      OutputIsFolded(item.callId, item.text, item.media);
    } else if !AssistantSide(item) && MessagesOf(item) != [] {
      ToldOne(MessagesOf(item)[0]);
    }
  }

  /** What each item says, item after item. */
  function Said(items: seq<Item>): seq<Piece> {
    if items == [] then [] else Said(items[..|items| - 1]) + SaidBy(items[|items| - 1])
  }

  lemma PiecesOne(ms: seq<Message>, m: Message)
    ensures Pieces(ms + [m]) == Pieces(ms) + PiecesOf(m)
  {
    assert (ms + [m])[..|ms|] == ms;
  }

  lemma {:induction false} PiecesJoin(a: seq<Message>, b: seq<Message>)
    ensures Pieces(a + b) == Pieces(a) + Pieces(b)
  {
    if b == [] {
      assert a + b == a;
      assert Pieces(a) + [] == Pieces(a);
    } else {
      var b', m := b[..|b| - 1], b[|b| - 1];
      PiecesJoin(a, b');
      PiecesOne(a + b', m);
      assert a + b' + [m] == a + b;
      Associative(Pieces(a), Pieces(b'), PiecesOf(m));
    }
  }

  lemma BlocksJoin(a: seq<Block>, b: seq<Block>)
    ensures PiecesOf(Message(Assistant, a + b)) == PiecesOf(Message(Assistant, a)) + PiecesOf(Message(Assistant, b))
  {
  }

  lemma FlushedPieces(ms: seq<Message>, pending: Option<seq<Block>>)
    ensures Pieces(Flushed(Fold(ms, pending))) == Pieces(ms) + PiecesOf(Message(Assistant, pending.GetOr([])))
  {
    if pending.Some? && pending.value != [] {
      PiecesOne(ms, Message(Assistant, pending.value));
    } else {
      assert PiecesOf(Message(Assistant, pending.GetOr([]))) == [];
    }
  }

  /** More blocks for the open turn. */
  lemma TurnGrows(ms: seq<Message>, pending: Option<seq<Block>>, more: seq<Block>)
    ensures Pieces(Flushed(Fold(ms, Some(pending.GetOr([]) + more))))
            == Pieces(Flushed(Fold(ms, pending))) + PiecesOf(Message(Assistant, more))
  {
    var open := pending.GetOr([]);
    FlushedPieces(ms, pending);
    FlushedPieces(ms, Some(open + more));
    BlocksJoin(open, more);
    Associative(Pieces(ms), PiecesOf(Message(Assistant, open)), PiecesOf(Message(Assistant, more)));
  }

  lemma Associative<T>(a: seq<T>, b: seq<T>, c: seq<T>)
    ensures a + b + c == a + (b + c)
  {
  }

  lemma AddKeepsAll(f: Fold, item: Item)
    ensures Pieces(Flushed(Add(f, item))) == Pieces(Flushed(f)) + SaidBy(item)
  {
    SaidIsFolded(item);
    if AssistantSide(item) {
      TurnGrows(f.messages, f.pending, BlocksOf(item));
    } else {
      PiecesJoin(Flushed(f), MessagesOf(item));
    }
  }

  function Boundaries(ms: seq<Message>): seq<Message> {
    if ms == [] then [] else Boundaries(ms[..|ms| - 1]) + (if ms[|ms| - 1].role.Assistant? then [] else [ms[|ms| - 1]])
  }

  /** The messages other than the assistant's that an item stands for. */
  function Standing(item: Item): seq<Message> {
    match item
    case SystemItem(text) => [Message(System, [TextBlock(text)])]
    case UserItem(blocks) => if blocks == [] then [] else [Message(User, blocks)]
    case OtherItem(kind) => [Message(User, [UnknownBlock(kind)])]
    case CallOutput(id, text, media) =>
      if media == [] then [Message(Tool, [ResultBlock(id, text)])]
      else if text == "" then [Message(User, [NoticeBlock(|media|)] + media)]
      else [Message(Tool, [ResultBlock(id, text)]), Message(User, [NoticeBlock(|media|)] + media)]
    case _ => []
  }

  function AllStanding(items: seq<Item>): seq<Message> {
    if items == [] then [] else AllStanding(items[..|items| - 1]) + Standing(items[|items| - 1])
  }

  lemma BoundariesOne(ms: seq<Message>, m: Message)
    ensures Boundaries(ms + [m]) == Boundaries(ms) + (if m.role.Assistant? then [] else [m])
  {
    assert (ms + [m])[..|ms|] == ms;
  }

  lemma FlushedBoundaries(f: Fold)
    ensures Boundaries(Flushed(f)) == Boundaries(f.messages)
  {
    if Flushed(f) != f.messages {
      BoundariesOne(f.messages, Message(Assistant, f.pending.value));
    }
  }

  lemma {:induction false} BoundariesJoin(ms: seq<Message>, more: seq<Message>)
    requires forall m :: m in more ==> !m.role.Assistant?
    ensures Boundaries(ms + more) == Boundaries(ms) + more
  {
    if more == [] {
      assert ms + more == ms && Boundaries(ms) + more == Boundaries(ms);
    } else {
      var front, m := more[..|more| - 1], more[|more| - 1];
      BoundariesJoin(ms, front);
      BoundariesOne(ms + front, m);
      assert more == front + [m] && m in more;
      Associative(ms, front, [m]);
      Associative(Boundaries(ms), front, [m]);
    }
  }

  lemma StandingIs(item: Item)
    ensures !AssistantSide(item) ==> MessagesOf(item) == Standing(item)
    ensures AssistantSide(item) ==> Standing(item) == []
    ensures forall m :: m in Standing(item) ==> !m.role.Assistant?
  {
  }

  lemma AddKeepsBoundaries(f: Fold, item: Item)
    ensures Boundaries(Add(f, item).messages) == Boundaries(f.messages) + Standing(item)
  {
    StandingIs(item);
    if AssistantSide(item) {
      assert Boundaries(f.messages) + [] == Boundaries(f.messages);
    } else {
      FlushedBoundaries(f);
      BoundariesJoin(Flushed(f), Standing(item));
    }
  }

  lemma {:induction false} FoldedBoundaries(items: seq<Item>)
    ensures Boundaries(FoldAll(items).messages) == AllStanding(items)
  {
    if items != [] {
      FoldedBoundaries(items[..|items| - 1]);
      AddKeepsBoundaries(FoldAll(items[..|items| - 1]), items[|items| - 1]);
    }
  }

  /** Everything that is not the assistant's stays a message of its own, in order. */
  lemma BoundariesStand(items: seq<Item>)
    ensures Boundaries(Converted(items)) == AllStanding(items)
  {
    FoldedBoundaries(items);
    FlushedBoundaries(FoldAll(items));
  }

  /** Nothing is lost, invented, reordered or moved to another role. */
  lemma {:induction false} ConversionKeepsAll(items: seq<Item>)
    ensures Pieces(Converted(items)) == Said(items)
  {
    if items != [] {
      ConversionKeepsAll(items[..|items| - 1]);
      AddKeepsAll(FoldAll(items[..|items| - 1]), items[|items| - 1]);
    }
  }

  // ----- one turn, one message -----

  predicate PendingOk(f: Fold) {
    f.pending.Some? ==> f.pending.value != []
  }

  lemma {:induction false} NoEmptyTurn(items: seq<Item>)
    ensures PendingOk(FoldAll(items))
    ensures forall m :: m in Converted(items) && m.role.Assistant? ==> m.blocks != []
  {
    if items != [] {
      NoEmptyTurn(items[..|items| - 1]);
    }
  }

  /** A boundary that stands for no message, met when `k` messages were complete. */
  predicate BlankAt(items: seq<Item>, j: nat, k: nat) {
    j < |items| && !AssistantSide(items[j]) && MessagesOf(items[j]) == [] && |Converted(items[..j])| == k
  }

  predicate BlankBefore(items: seq<Item>, k: nat) {
    exists j :: 0 <= j < |items| && BlankAt(items, j, k)
  }

  lemma BlankStays(items: seq<Item>, k: nat)
    requires items != [] && BlankBefore(items[..|items| - 1], k)
    ensures BlankBefore(items, k)
  {
    var j :| 0 <= j < |items| - 1 && BlankAt(items[..|items| - 1], j, k);
    assert items[..|items| - 1][..j] == items[..j];
    assert BlankAt(items, j, k);
  }

  /** Two assistant messages in a row, or one before a turn still open, only at a
      position that is `blank`. */
  predicate Parted(blank: nat -> bool, f: Fold) {
    && (forall k :: 0 < k < |f.messages| && f.messages[k - 1].role.Assistant? && f.messages[k].role.Assistant? ==> blank(k))
    && (f.messages != [] && f.messages[|f.messages| - 1].role.Assistant? ==> blank(|f.messages|))
  }

  lemma BoundaryRoles(item: Item)
    ensures forall m :: m in MessagesOf(item) ==> !m.role.Assistant?
  {
  }

  /** A flush, and then messages of no assistant. */
  lemma FlushParts(blank: nat -> bool, f: Fold, ms: seq<Message>)
    requires Parted(blank, f) && forall m :: m in ms ==> !m.role.Assistant?
    requires ms == [] ==> blank(|Flushed(f)|)
    ensures Parted(blank, Fold(Flushed(f) + ms, None))
  {
    var done, after := Flushed(f), Flushed(f) + ms;
    if ms != [] {
      assert after[|after| - 1] in ms;
    }
    forall k | |done| <= k < |after| ensures !after[k].role.Assistant? {
      assert after[k] in ms;
    }
  }

  lemma {:induction false} AllParted(items: seq<Item>)
    ensures Parted((k: nat) => BlankBefore(items, k), FoldAll(items))
  {
    if items != [] {
      var before, item := items[..|items| - 1], items[|items| - 1];
      var f, blank := FoldAll(before), (k: nat) => BlankBefore(items, k);
      AllParted(before);
      forall k: nat | BlankBefore(before, k) ensures blank(k) {
        BlankStays(items, k);
      }
      assert Parted(blank, f);
      if !AssistantSide(item) {
        BoundaryRoles(item);
        if MessagesOf(item) == [] {
          assert BlankAt(items, |items| - 1, |Flushed(f)|);
        }
        FlushParts(blank, f, MessagesOf(item));
      }
    }
  }

  /** Adjacent assistant messages occur only across an item that contributed no
      message: otherwise one turn is one message. */
  lemma AdjacentOnlyAcrossBlank(items: seq<Item>, k: nat)
    requires 0 < k < |Converted(items)|
    requires Converted(items)[k - 1].role.Assistant? && Converted(items)[k].role.Assistant?
    ensures BlankBefore(items, k)
  {
    var blank := (j: nat) => BlankBefore(items, j);
    AllParted(items);
    assert blank(k);
  }
}
