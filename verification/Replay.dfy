/** Stripping the thinking blocks that the selected upstream protocol cannot replay. */
module Replay {
  import opened Options
  import opened Text
  import opened Turns

  /** Responses upstreams handle foreign seals themselves. */
  datatype Protocol = Chat | Anthropic | Responses

  predicate Replayable(p: Protocol, b: Block) {
    match b
    case ThinkingBlock(text, signature, _, _) => if p.Chat? then signature == "" && Trim(text) != "" else signature != ""
    case RedactedBlock(_) => !p.Chat?
    case _ => true
  }

  predicate Speaks(b: Block) {
    (b.TextBlock? && Trim(b.text) != "") || b.CallBlock?
  }

  function KeptBlocks(p: Protocol, bs: seq<Block>): seq<Block> {
    if bs == [] then []
    else KeptBlocks(p, bs[..|bs| - 1]) + (if Replayable(p, bs[|bs| - 1]) then [bs[|bs| - 1]] else [])
  }

  predicate AnySpeaks(bs: seq<Block>) {
    exists b :: b in bs && Speaks(b)
  }

  /** What is left of a message, or nothing. */
  function GatedMessage(p: Protocol, m: Message): Option<Message> {
    var blocks := KeptBlocks(p, m.blocks);
    if !m.role.Assistant? then Some(m)
    else if p.Chat? && blocks != [] && !AnySpeaks(blocks) then None
    else if |blocks| == |m.blocks| then Some(m)
    else if blocks == [] then None
    else Some(Message(Assistant, blocks))
  }

  function Gated(p: Protocol, ms: seq<Message>): seq<Message> {
    if ms == [] then []
    else
      var last := GatedMessage(p, ms[|ms| - 1]);
      Gated(p, ms[..|ms| - 1]) + (if last.Some? then [last.value] else [])
  }

  function ReplayGate(p: Protocol, ms: seq<Message>): seq<Message> {
    if p.Responses? then ms else Gated(p, ms)
  }

  lemma SpeaksGrow(bs: seq<Block>, b: Block)
    ensures AnySpeaks(bs + [b]) <==> AnySpeaks(bs) || Speaks(b)
  {
    assert b in bs + [b];
    assert forall x :: x in bs ==> x in bs + [b];
  }

  method GateMessage(p: Protocol, m: Message) returns (kept: Option<Message>)
    requires m.role.Assistant?
    ensures kept == GatedMessage(p, m)
  {
    var blocks: seq<Block>, removed, hasText, hasToolCall := [], 0, false, false;
    for i := 0 to |m.blocks|
      invariant blocks == KeptBlocks(p, m.blocks[..i]) && |blocks| + removed == i
      invariant hasText || hasToolCall <==> AnySpeaks(blocks)
    {
      assert m.blocks[..i + 1][..i] == m.blocks[..i];
      var b := m.blocks[i];
      var drop := false;
      match b {
        case ThinkingBlock(text, signature, _, _) =>
          drop := if p.Chat? then signature != "" || Trim(text) == "" else signature == "";
        case RedactedBlock(_) =>
          drop := p.Chat?;
        case TextBlock(text) =>
          hasText := hasText || Trim(text) != "";
        case CallBlock(_, _, _) =>
          hasToolCall := true;
        case _ =>
      }
      if drop {
        removed := removed + 1;
      } else {
        SpeaksGrow(blocks, b);
        blocks := blocks + [b];
      }
    }
    assert m.blocks[..|m.blocks|] == m.blocks;
    if p.Chat? && |blocks| > 0 && !hasText && !hasToolCall {
      return None;
    }
    if removed == 0 {
      return Some(m);
    }
    if |blocks| == 0 {
      return None;
    }
    kept := Some(m.(blocks := blocks));
  }

  method ApplyReplayGate(p: Protocol, messages: seq<Message>) returns (kept: seq<Message>)
    ensures kept == ReplayGate(p, messages)
  {
    if p.Responses? {
      return messages;
    }
    kept := [];
    for i := 0 to |messages|
      invariant kept == Gated(p, messages[..i])
    {
      assert messages[..i + 1][..i] == messages[..i];
      if messages[i].role.Assistant? {
        var m := GateMessage(p, messages[i]);
        if m.Some? {
          kept := kept + [m.value];
        }
      } else {
        kept := kept + [messages[i]];
      }
    }
    assert messages[..|messages|] == messages;
  }

  // ----- properties -----

  lemma {:induction false} KeptHas(p: Protocol, bs: seq<Block>, b: Block)
    ensures b in KeptBlocks(p, bs) <==> b in bs && Replayable(p, b)
  {
    if bs != [] {
      KeptHas(p, bs[..|bs| - 1], b);
      assert bs == bs[..|bs| - 1] + [bs[|bs| - 1]];
    }
  }

  lemma {:induction false} KeptFits(p: Protocol, bs: seq<Block>)
    ensures |KeptBlocks(p, bs)| <= |bs|
    ensures |KeptBlocks(p, bs)| == |bs| ==> KeptBlocks(p, bs) == bs
  {
    if bs != [] {
      KeptFits(p, bs[..|bs| - 1]);
      assert bs == bs[..|bs| - 1] + [bs[|bs| - 1]];
    }
  }

  lemma KeptIsReplayable(p: Protocol, bs: seq<Block>)
    ensures forall b :: b in KeptBlocks(p, bs) <==> b in bs && Replayable(p, b)
    ensures |KeptBlocks(p, bs)| <= |bs|
    ensures |KeptBlocks(p, bs)| == |bs| ==> KeptBlocks(p, bs) == bs
  {
    KeptFits(p, bs);
    forall b ensures b in KeptBlocks(p, bs) <==> b in bs && Replayable(p, b) {
      KeptHas(p, bs, b);
    }
  }

  /** What a turn keeps: everything but thoughts, and of those, for chat the unsigned
      ones with text, elsewhere the signed ones; encrypted thoughts not for chat. */
  lemma KeptExactly(p: Protocol, bs: seq<Block>, b: Block)
    ensures b in KeptBlocks(p, bs) <==>
      && b in bs
      && (b.ThinkingBlock? && p.Chat? ==> b.signature == "" && Trim(b.text) != "")
      && (b.ThinkingBlock? && !p.Chat? ==> b.signature != "")
      && (b.RedactedBlock? ==> !p.Chat?)
  {
    KeptHas(p, bs, b);
  }

  /** When an assistant turn goes altogether: it kept nothing but had something, or for
      chat kept only what says nothing and calls nothing. */
  lemma DroppedExactly(p: Protocol, m: Message)
    ensures GatedMessage(p, m).None? <==>
      && m.role.Assistant? && m.blocks != []
      && (KeptBlocks(p, m.blocks) == []
          || (p.Chat? && forall b :: b in KeptBlocks(p, m.blocks) ==> !b.CallBlock? && (b.TextBlock? ==> Trim(b.text) == "")))
    ensures GatedMessage(p, m).Some? && m.role.Assistant? ==> GatedMessage(p, m).value.blocks == KeptBlocks(p, m.blocks)
    ensures GatedMessage(p, m).Some? ==> GatedMessage(p, m).value.role == m.role
  {
    KeptFits(p, m.blocks);
    assert AnySpeaks(KeptBlocks(p, m.blocks)) <==>
           exists b :: b in KeptBlocks(p, m.blocks) && (b.CallBlock? || (b.TextBlock? && Trim(b.text) != ""));
  }

  lemma {:induction false} AllReplayable(p: Protocol, bs: seq<Block>)
    requires forall b :: b in bs ==> Replayable(p, b)
    ensures KeptBlocks(p, bs) == bs
  {
    if bs != [] {
      var before, last := bs[..|bs| - 1], bs[|bs| - 1];
      assert bs == before + [last] && last in bs;
      AllReplayable(p, before);
      assert KeptBlocks(p, bs) == KeptBlocks(p, before) + [last];
    }
  }

  /** What may be sent to the protocol: only replayable blocks, and for chat no turn of
      thoughts alone. */
  predicate Playable(p: Protocol, m: Message) {
    m.role.Assistant? ==>
      (forall b :: b in m.blocks ==> Replayable(p, b)) && (p.Chat? && m.blocks != [] ==> AnySpeaks(m.blocks))
  }

  lemma GatedMessageIsPlayable(p: Protocol, m: Message)
    ensures GatedMessage(p, m).Some? ==>
      Playable(p, GatedMessage(p, m).value) && GatedMessage(p, m).value.role == m.role
      && forall b :: b in m.blocks && Speaks(b) ==> b in GatedMessage(p, m).value.blocks
    ensures GatedMessage(p, m).None? ==> m.role.Assistant? && !AnySpeaks(m.blocks)
  {
    KeptIsReplayable(p, m.blocks);
  }

  lemma PlayableStays(p: Protocol, m: Message)
    requires Playable(p, m)
    ensures GatedMessage(p, m) == Some(m)
  {
    if m.role.Assistant? {
      AllReplayable(p, m.blocks);
    }
  }

  lemma {:induction false} GatedIsPlayable(p: Protocol, ms: seq<Message>)
    ensures forall m :: m in Gated(p, ms) ==> Playable(p, m)
  {
    if ms != [] {
      GatedIsPlayable(p, ms[..|ms| - 1]);
      GatedMessageIsPlayable(p, ms[|ms| - 1]);
    }
  }

  lemma {:induction false} AllPlayableStay(p: Protocol, ms: seq<Message>)
    requires forall m :: m in ms ==> Playable(p, m)
    ensures Gated(p, ms) == ms
  {
    if ms != [] {
      assert ms[|ms| - 1] in ms;
      AllPlayableStay(p, ms[..|ms| - 1]);
      PlayableStays(p, ms[|ms| - 1]);
    }
  }

  /** Running the gate once more changes nothing. */
  lemma GateIsIdempotent(p: Protocol, ms: seq<Message>)
    ensures ReplayGate(p, ReplayGate(p, ms)) == ReplayGate(p, ms)
  {
    if !p.Responses? {
      GatedIsPlayable(p, ms);
      AllPlayableStay(p, Gated(p, ms));
    }
  }

  function Others(ms: seq<Message>): seq<Message> {
    if ms == [] then []
    else Others(ms[..|ms| - 1]) + (if ms[|ms| - 1].role.Assistant? then [] else [ms[|ms| - 1]])
  }

  /** Everything an assistant said aloud or called, in order. */
  function Spoken(ms: seq<Message>): seq<Block> {
    if ms == [] then []
    else Spoken(ms[..|ms| - 1])
         + (if ms[|ms| - 1].role.Assistant? then SpokenIn(ms[|ms| - 1].blocks) else [])
  }

  function SpokenIn(bs: seq<Block>): seq<Block> {
    if bs == [] then []
    else SpokenIn(bs[..|bs| - 1]) + (if Speaks(bs[|bs| - 1]) then [bs[|bs| - 1]] else [])
  }

  lemma SpokenInGrows(bs: seq<Block>, b: Block)
    ensures SpokenIn(bs + [b]) == SpokenIn(bs) + (if Speaks(b) then [b] else [])
  {
    assert (bs + [b])[..|bs|] == bs;
  }

  lemma SpokenGrows(ms: seq<Message>, m: Message)
    ensures Spoken(ms + [m]) == Spoken(ms) + (if m.role.Assistant? then SpokenIn(m.blocks) else [])
    ensures Others(ms + [m]) == Others(ms) + (if m.role.Assistant? then [] else [m])
  {
    assert (ms + [m])[..|ms|] == ms;
  }

  lemma {:induction false} KeptSpeaksAlike(p: Protocol, bs: seq<Block>)
    ensures SpokenIn(KeptBlocks(p, bs)) == SpokenIn(bs)
  {
    if bs != [] {
      var n := |bs| - 1;
      KeptSpeaksAlike(p, bs[..n]);
      SpokenInGrows(KeptBlocks(p, bs[..n]), bs[n]);
      assert KeptBlocks(p, bs[..n]) + [] == KeptBlocks(p, bs[..n]);
    }
  }

  lemma {:induction false} SilentSaysNothing(bs: seq<Block>)
    requires !AnySpeaks(bs)
    ensures SpokenIn(bs) == []
  {
    if bs != [] {
      assert bs[|bs| - 1] in bs;
      SilentSaysNothing(bs[..|bs| - 1]);
    }
  }

  lemma MessageSpeaksAlike(p: Protocol, m: Message)
    requires m.role.Assistant?
    ensures (if GatedMessage(p, m).Some? then SpokenIn(GatedMessage(p, m).value.blocks) else []) == SpokenIn(m.blocks)
  {
    KeptSpeaksAlike(p, m.blocks);
    KeptIsReplayable(p, m.blocks);
    if GatedMessage(p, m).None? {
      GatedMessageIsPlayable(p, m);
      SilentSaysNothing(m.blocks);
    }
  }

  /** The gate touches no other message, and loses no word and no call. */
  lemma {:induction false} GateOnlyDropsThoughts(p: Protocol, ms: seq<Message>)
    ensures Others(Gated(p, ms)) == Others(ms) && Spoken(Gated(p, ms)) == Spoken(ms)
  {
    if ms != [] {
      var n := |ms| - 1;
      GateOnlyDropsThoughts(p, ms[..n]);
      var before, m := Gated(p, ms[..n]), GatedMessage(p, ms[n]);
      if m.Some? {
        SpokenGrows(before, m.value);
        GatedMessageIsPlayable(p, ms[n]);
      } else {
        assert before + [] == before;
      }
      if ms[n].role.Assistant? {
        MessageSpeaksAlike(p, ms[n]);
      }
    }
  }
}
