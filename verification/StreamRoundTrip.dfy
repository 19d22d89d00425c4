/** Printing a message as an event stream and assembling it again (src/krepis/llm.py,
    _accumulate_anthropic_stream): blocks, text, tool inputs and the message's own fields come
    back as they were sent, in whatever fragments and however the blocks interleave. */
module StreamRoundTrip {
  import opened Prelude
  import opened StreamAssembly

  /** A piece of a block, as a text delta or as a partial-JSON delta carries it. */
  datatype Fragment = InText(text: string) | InJson(json: string)

  function Characters(f: Fragment): string { if f.InText? then f.text else f.json }

  /** One block as it is sent. */
  datatype Sent = Sent(header: Header, fragments: seq<Fragment>)

  function Whole(fragments: seq<Fragment>): string {
    if fragments == [] then "" else Whole(fragments[..|fragments| - 1]) + Characters(fragments[|fragments| - 1])
  }

  function AsDelta<U>(i: int, f: Fragment): Event<U> {
    match f
    case InText(t) => Delta(i, Some(t), None)
    case InJson(j) => Delta(i, None, Some(j))
  }

  // ── a stream that prints a message ──

  /** The deltas of block i, in order. */
  function DeltasOf<U>(es: seq<Event<U>>, i: int): seq<Event<U>> {
    if es == [] then []
    else
      var (before, e) := (DeltasOf(es[..|es| - 1], i), es[|es| - 1]);
      if e.Delta? && e.index == i then before + [e] else before
  }

  /** es sends these blocks under these indices: each starts once, in this order, before its
      deltas, and its deltas are its fragments in order. Blocks, fragments and message-level
      events may interleave. */
  ghost predicate Prints<U>(es: seq<Event<U>>, blocks: seq<Sent>, at: seq<int>) {
    && WellFormed(es) && |at| == |blocks| && |Starts(es)| == |blocks|
    && (forall k :: 0 <= k < |blocks| ==> Starts(es)[k] == BlockStart(at[k], blocks[k].header))
    && (forall k :: 0 <= k < |blocks| ==> |DeltasOf(es, at[k])| == |blocks[k].fragments|)
    && (forall k, j :: 0 <= k < |blocks| && 0 <= j < |blocks[k].fragments| ==>
          DeltasOf(es, at[k])[j] == AsDelta<U>(at[k], blocks[k].fragments[j]))
  }

  ghost predicate Carries<U>(ds: seq<Event<U>>, i: int, fragments: seq<Fragment>) {
    |ds| == |fragments| && forall j :: 0 <= j < |ds| ==> ds[j] == AsDelta<U>(i, fragments[j])
  }

  lemma {:induction false} AllTextOfDeltas<U>(es: seq<Event<U>>, i: int)
    ensures AllText(es, i) == AllText(DeltasOf(es, i), i)
  {
    if es != [] {
      var init, e := es[..|es| - 1], es[|es| - 1];
      AllTextOfDeltas(init, i);
      if e.Delta? && e.index == i {
        assert Init(DeltasOf(es, i)) == DeltasOf(init, i) && Last(DeltasOf(es, i)) == e;
      }
    }
  }

  lemma {:induction false} DeltasSayWhole<U>(ds: seq<Event<U>>, i: int, fragments: seq<Fragment>)
    requires Carries(ds, i, fragments)
    ensures AllText(ds, i) == Whole(fragments)
  {
    if ds != [] {
      DeltasSayWhole(Init(ds), i, fragments[..|fragments| - 1]);
      assert Last(ds) == AsDelta<U>(i, fragments[|fragments| - 1]);
    }
  }

  // ── and what comes back ──

  /** The content a block is assembled into: for a tool call the parse of all its characters,
      and an empty object only if there are none but blanks; else the characters. */
  ghost predicate ComesBackAs<J>(b: Sent, c: Content<J>, parse: string -> Option<J>) {
    var all := Whole(b.fragments);
    var nothing := forall i :: 0 <= i < |all| ==> IsSpace(all[i]);
    if b.header.kind == "tool_use" then
      && c.ToolUse? && c.name == b.header.name && c.id == b.header.id
      && (nothing ==> c.input == EmptyObject)
      && (!nothing && parse(all).Some? ==> c.input == Parsed(parse(all).value))
      && (!nothing && parse(all).None? ==> c.input == Unparsable)
    else
      c == Content.Text(b.header.kind, all)
  }

  lemma BlockComesBack<U, J>(es: seq<Event<U>>, blocks: seq<Sent>, at: seq<int>, k: nat, parse: string -> Option<J>)
    requires Prints(es, blocks, at) && k < |blocks|
    ensures k < |ContentOf(es, parse)| && ComesBackAs(blocks[k], ContentOf(es, parse)[k], parse)
  {
    WellFormedMeaning(es);
    assert Order(es)[k] == Starts(es)[k].index == at[k];
    BlockText(es, blocks, at, k);
  }

  lemma BlockText<U>(es: seq<Event<U>>, blocks: seq<Sent>, at: seq<int>, k: nat)
    requires Prints(es, blocks, at) && k < |blocks|
    ensures AllText(es, at[k]) == Whole(blocks[k].fragments)
  {
    AllTextOfDeltas(es, at[k]);
    DeltasSayWhole(DeltasOf(es, at[k]), at[k], blocks[k].fragments);
  }

  /** The empty text counts as absent. */
  function NonEmpty(s: Option<string>): Option<string> { if s == Some("") then None else s }

  lemma EnvelopeReadsBack<U>(es: seq<Event<U>>, model: Option<string>, id: Option<string>, usage: Option<U>,
                             stop: Option<string>, output: Option<int>)
    requires Envelope(es) == [MessageStart(model, id, usage), MessageDelta(stop, output)]
    ensures ModelOf(es) == NonEmpty(model) && IdOf(es) == NonEmpty(id) && UsageOf(es) == usage
    ensures StopOf(es) == NonEmpty(stop) && OutputOf(es) == output
  {
    EnvelopeDecides(es);
    var none: seq<Event<U>> := [];
    var first := none + [MessageStart(model, id, usage)];
    SummaryStep(none, MessageStart(model, id, usage));
    SummaryStep(first, MessageDelta(stop, output));
    assert Envelope(es) == first + [MessageDelta(stop, output)];
  }

  /** The round trip: a stream that prints a message with one message_start and one
      message_delta is assembled into that message, block by block in the order of their
      starts. */
  lemma PrintedComesBack<U, J>(es: seq<Event<U>>, blocks: seq<Sent>, at: seq<int>, model: Option<string>,
                               id: Option<string>, usage: Option<U>, stop: Option<string>, output: Option<int>,
                               parse: string -> Option<J>, specModel: string)
    requires Prints(es, blocks, at)
    requires Envelope(es) == [MessageStart(model, id, usage), MessageDelta(stop, output)]
    ensures var m := Assembled(es, parse, specModel);
      && |m.content| == |blocks|
      && (forall k :: 0 <= k < |blocks| ==> ComesBackAs(blocks[k], m.content[k], parse))
      && m.model == (if NonEmpty(model).Some? then model.value else specModel)
      && m.id == NonEmpty(id) && m.startUsage == usage && m.stop == NonEmpty(stop) && m.output == output
  {
    EnvelopeReadsBack(es, model, id, usage, stop, output);
    WellFormedMeaning(es);
    forall k | 0 <= k < |blocks|
      ensures ComesBackAs(blocks[k], ContentOf(es, parse)[k], parse)
    {
      BlockComesBack(es, blocks, at, k, parse);
    }
  }

  /** The text blocks that were sent, in a row. */
  function SentText(blocks: seq<Sent>): string {
    if blocks == [] then ""
    else
      var b := blocks[|blocks| - 1];
      SentText(blocks[..|blocks| - 1]) + if b.header.kind == "text" then Whole(b.fragments) else ""
  }

  ghost predicate HasSent<U>(es: seq<Event<U>>, i: int, b: Sent) {
    HeaderOf(es, i) == b.header && TextOf(es, i) == Whole(b.fragments)
  }

  lemma {:induction false} PartialOfSent<U>(es: seq<Event<U>>, blocks: seq<Sent>, at: seq<int>)
    requires |at| == |blocks| && forall k :: 0 <= k < |blocks| ==> HasSent(es, at[k], blocks[k])
    ensures PartialOver(es, at) == SentText(blocks)
  {
    if blocks != [] {
      var n := |blocks| - 1;
      PartialOfSent(es, blocks[..n], at[..n]);
      assert HasSent(es, at[n], blocks[n]);
    }
  }

  /** And what a stream that breaks off leaves is the text that was sent until then. */
  lemma BrokenOffLeavesText<U>(es: seq<Event<U>>, blocks: seq<Sent>, at: seq<int>)
    requires Prints(es, blocks, at)
    ensures PartialText(es) == SentText(blocks)
  {
    WellFormedMeaning(es);
    assert forall k :: 0 <= k < |blocks| ==> Starts(es)[k].index == at[k];
    assert Order(es) == at;
    forall k | 0 <= k < |blocks|
      ensures HasSent(es, at[k], blocks[k])
    {
      BlockText(es, blocks, at, k);
    }
    PartialOfSent(es, blocks, at);
  }
}
