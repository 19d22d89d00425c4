/** Reassembly of an Anthropic event stream into one message (src/krepis/llm.py,
    _accumulate_anthropic_stream): deltas are gathered per block index, and a block's JSON is
    parsed only when the stream has ended. */
module StreamAssembly {
  import opened Prelude

  datatype Header = Header(kind: string, name: Option<string>, id: Option<string>)

  /** U is the usage block of a message_start event. */
  datatype Event<U> =
    | MessageStart(model: Option<string>, id: Option<string>, usage: Option<U>)
    | BlockStart(index: int, header: Header)
    | Delta(index: int, text: Option<string>, partialJson: Option<string>)
    | MessageDelta(stop: Option<string>, output: Option<int>)
    | Ping

  datatype ToolInput<J> = EmptyObject | Parsed(json: J) | Unparsable

  datatype Content<J> =
    | ToolUse(name: Option<string>, id: Option<string>, input: ToolInput<J>)
    | Text(kind: string, text: string)

  datatype Message<U, J> = Message(
    content: seq<Content<J>>, stop: Option<string>, output: Option<int>,
    model: string, id: Option<string>, startUsage: Option<U>, chunks: nat)

  const TEXT := Header("text", None, None)

  // ── what each event says about one block index ──

  function Init<U>(es: seq<Event<U>>): seq<Event<U>>
    requires es != []
  {
    es[..|es| - 1]
  }

  function Last<U>(es: seq<Event<U>>): Event<U>
    requires es != []
  {
    es[|es| - 1]
  }

  /** The block indices in the order in which they first occur. */
  function Order<U>(es: seq<Event<U>>): seq<int> {
    if es == [] then []
    else
      var (before, e) := (Order(Init(es)), Last(es));
      if (e.BlockStart? || e.Delta?) && e.index !in before then before + [e.index] else before
  }

  /** A block is headed by its latest start, or is a text block if it has none. */
  function HeaderOf<U>(es: seq<Event<U>>, i: int): Header {
    if es == [] then TEXT
    else if Last(es).BlockStart? && Last(es).index == i then Last(es).header
    else HeaderOf(Init(es), i)
  }

  /** What one event says for block i. */
  function Says<U>(e: Event<U>, i: int): string {
    if e.Delta? && e.index == i then Piece(e.text, e.partialJson) else ""
  }

  /** A block's text is what its deltas said since its latest start. */
  function TextOf<U>(es: seq<Event<U>>, i: int): string {
    if es == [] then ""
    else if Last(es).BlockStart? && Last(es).index == i then ""
    else TextOf(Init(es), i) + Says(Last(es), i)
  }

  /** Python's "x or y" on optional text: the empty text counts as absent. */
  function OrElse(x: Option<string>, y: Option<string>): Option<string> {
    if x.Some? && x.value != "" then x else y
  }

  /** Text if the delta has any, else its partial JSON. */
  function Piece(text: Option<string>, partialJson: Option<string>): string {
    match OrElse(text, partialJson)
    case Some(piece) => piece
    case None => ""
  }

  function StopOf<U>(es: seq<Event<U>>): Option<string> {
    if es == [] then None
    else if Last(es).MessageDelta? then OrElse(Last(es).stop, StopOf(Init(es)))
    else StopOf(Init(es))
  }

  function OutputOf<U>(es: seq<Event<U>>): Option<int> {
    if es == [] then None
    else if Last(es).MessageDelta? && Last(es).output.Some? then Last(es).output
    else OutputOf(Init(es))
  }

  function ModelOf<U>(es: seq<Event<U>>): Option<string> {
    if es == [] then None
    else if Last(es).MessageStart? then OrElse(Last(es).model, ModelOf(Init(es)))
    else ModelOf(Init(es))
  }

  function IdOf<U>(es: seq<Event<U>>): Option<string> {
    if es == [] then None
    else if Last(es).MessageStart? then OrElse(Last(es).id, IdOf(Init(es)))
    else IdOf(Init(es))
  }

  /** A later message_start replaces the usage block even when it has none. */
  function UsageOf<U>(es: seq<Event<U>>): Option<U> {
    if es == [] then None
    else if Last(es).MessageStart? then Last(es).usage
    else UsageOf(Init(es))
  }

  function ContentOf<U, J>(es: seq<Event<U>>, parse: string -> Option<J>): seq<Content<J>> {
    seq(|Order(es)|, k requires 0 <= k < |Order(es)| =>
      MakeContent(HeaderOf(es, Order(es)[k]), TextOf(es, Order(es)[k]), parse))
  }

  predicate Blank(s: string) { forall i :: 0 <= i < |s| ==> IsSpace(s[i]) }

  function MakeContent<J>(h: Header, joined: string, parse: string -> Option<J>): Content<J> {
    if h.kind == "tool_use" then
      ToolUse(h.name, h.id,
              if Blank(joined) then EmptyObject
              else match parse(joined) case Some(j) => Parsed(j) case None => Unparsable)
    else Text(h.kind, joined)
  }

  function Assembled<U, J>(es: seq<Event<U>>, parse: string -> Option<J>, specModel: string)
    : Message<U, J>
  {
    Message(ContentOf(es, parse), StopOf(es), OutputOf(es),
            OrElse(ModelOf(es), Some(specModel)).value, IdOf(es), UsageOf(es), |es|)
  }

  // ── fragmentation does not matter ──

  /** The block starts of a stream, in order. */
  function Starts<U>(es: seq<Event<U>>): seq<Event<U>> {
    if es == [] then []
    else Starts(Init(es)) + if Last(es).BlockStart? then [Last(es)] else []
  }

  /** Everything the deltas of one block say, wherever they stand. */
  function AllText<U>(es: seq<Event<U>>, i: int): string {
    if es == [] then ""
    else AllText(Init(es), i) + Says(Last(es), i)
  }

  predicate Started<U>(es: seq<Event<U>>, i: int) {
    exists k :: 0 <= k < |es| && es[k].BlockStart? && es[k].index == i
  }

  /** Each block starts once, before its first delta. */
  predicate WellFormed<U>(es: seq<Event<U>>) {
    && (forall j :: 0 <= j < |es| && es[j].BlockStart? ==> !Started(es[..j], es[j].index))
    && (forall j :: 0 <= j < |es| && es[j].Delta? ==> Started(es[..j], es[j].index))
  }

  function Indices<U>(starts: seq<Event<U>>): seq<int>
    requires forall k :: 0 <= k < |starts| ==> starts[k].BlockStart?
  {
    seq(|starts|, k requires 0 <= k < |starts| => starts[k].index)
  }

  lemma {:induction false} StartsAreStarts<U>(es: seq<Event<U>>)
    ensures forall k :: 0 <= k < |Starts(es)| ==> Starts(es)[k].BlockStart?
  {
    if es != [] { StartsAreStarts(Init(es)); }
  }

  lemma WellFormedInit<U>(es: seq<Event<U>>)
    requires es != [] && WellFormed(es)
    ensures WellFormed(Init(es))
    ensures Last(es).BlockStart? ==> !Started(Init(es), Last(es).index)
    ensures Last(es).Delta? ==> Started(Init(es), Last(es).index)
  {
    assert forall j :: 0 <= j < |es| - 1 ==> Init(es)[..j] == es[..j];
    assert es[..|es| - 1] == Init(es);
  }

  /** In a well-formed stream a block's latest start is its only one, its place among the
      blocks is that of its start, and no delta is forgotten. */
  lemma {:induction false} WellFormedMeaning<U>(es: seq<Event<U>>)
    requires WellFormed(es)
    ensures forall k :: 0 <= k < |Starts(es)| ==> Starts(es)[k].BlockStart?
    ensures Order(es) == Indices(Starts(es))
    ensures forall i :: Started(es, i) <==> i in Order(es)
    ensures forall i :: TextOf(es, i) == AllText(es, i)
    ensures forall k :: 0 <= k < |Starts(es)| ==>
      HeaderOf(es, Starts(es)[k].index) == Starts(es)[k].header
    ensures forall i :: i !in Order(es) ==> AllText(es, i) == ""
  {
    StartsAreStarts(es);
    if es != [] {
      var before, e := Init(es), Last(es);
      WellFormedInit(es);
      WellFormedMeaning(before);
      StartedGrows(es);
      if e.BlockStart? {
        assert e.index !in Order(before);
        assert Starts(es) == Starts(before) + [e];
      } else {
        assert Starts(es) == Starts(before);
      }
      forall k | 0 <= k < |Starts(es)|
        ensures HeaderOf(es, Starts(es)[k].index) == Starts(es)[k].header
      {
        if k < |Starts(before)| {
          assert Starts(es)[k] == Starts(before)[k];
          assert Order(before)[k] == Starts(before)[k].index;
        }
      }
    }
  }

  lemma StartedGrows<U>(es: seq<Event<U>>)
    requires es != []
    ensures forall i :: Started(es, i) <==> Started(Init(es), i) || (Last(es).BlockStart? && Last(es).index == i)
  {
    forall i
      ensures Started(es, i) <==> Started(Init(es), i) || (Last(es).BlockStart? && Last(es).index == i)
    {
      if Started(Init(es), i) {
        var k :| 0 <= k < |Init(es)| && Init(es)[k].BlockStart? && Init(es)[k].index == i;
        assert es[k] == Init(es)[k];
      }
      if Last(es).BlockStart? && Last(es).index == i {
        assert es[|es| - 1] == Last(es);
      }
      if Started(es, i) {
        var k :| 0 <= k < |es| && es[k].BlockStart? && es[k].index == i;
        if k < |es| - 1 { assert Init(es)[k] == es[k]; }
      }
    }
  }

  /** The message-level events of a stream, in order. */
  function Envelope<U>(es: seq<Event<U>>): seq<Event<U>> {
    if es == [] then []
    else Envelope(Init(es)) + if Last(es).MessageStart? || Last(es).MessageDelta? then [Last(es)] else []
  }

  lemma {:induction false} EnvelopeDecides<U>(es: seq<Event<U>>)
    ensures var env := Envelope(es);
      && StopOf(es) == StopOf(env) && OutputOf(es) == OutputOf(env)
      && ModelOf(es) == ModelOf(env) && UsageOf(es) == UsageOf(env) && IdOf(es) == IdOf(env)
  {
    if es != [] {
      EnvelopeDecides(Init(es));
      if Last(es).MessageStart? || Last(es).MessageDelta? {
        assert Init(Envelope(es)) == Envelope(Init(es));
      } else {
        assert Envelope(es) == Envelope(Init(es));
      }
    }
  }

  /** Two well-formed streams with the same message-level events that start the same blocks
      in the same order and carry the same text for each, in whatever pieces and however the
      blocks interleave, are assembled into the same message, event count apart; and their
      partial texts agree too. */
  lemma FragmentationInvariance<U, J>(a: seq<Event<U>>, b: seq<Event<U>>, parse: string -> Option<J>,
                                      specModel: string)
    requires WellFormed(a) && WellFormed(b) && Starts(a) == Starts(b) && Envelope(a) == Envelope(b)
    requires forall i :: Started(a, i) ==> AllText(a, i) == AllText(b, i)
    ensures Assembled(a, parse, specModel) == Assembled(b, parse, specModel).(chunks := |a|)
    ensures PartialText(a) == PartialText(b)
  {
    SameContent(a, b, parse);
    EnvelopeDecides(a);
    EnvelopeDecides(b);
  }

  lemma SameContent<U, J>(a: seq<Event<U>>, b: seq<Event<U>>, parse: string -> Option<J>)
    requires WellFormed(a) && WellFormed(b) && Starts(a) == Starts(b)
    requires forall i :: Started(a, i) ==> AllText(a, i) == AllText(b, i)
    ensures ContentOf(a, parse) == ContentOf(b, parse)
    ensures PartialText(a) == PartialText(b)
  {
    WellFormedMeaning(a);
    WellFormedMeaning(b);
    forall k | 0 <= k < |Order(a)|
      ensures HeaderOf(a, Order(a)[k]) == HeaderOf(b, Order(a)[k])
      ensures TextOf(a, Order(a)[k]) == TextOf(b, Order(a)[k])
    {
      assert Order(a)[k] == Starts(a)[k].index && Started(a, Order(a)[k]);
    }
    SamePartial(a, b, Order(a));
  }

  /** What the deltas of a block said before its latest start. */
  function Forgotten<U>(es: seq<Event<U>>, i: int): string {
    if es == [] then ""
    else if Last(es).BlockStart? && Last(es).index == i then AllText(Init(es), i)
    else Forgotten(Init(es), i)
  }

  /** A start forgets the deltas before it: a block keeps all its text exactly if those said
      nothing. */
  lemma {:induction false} KeptIff<U>(es: seq<Event<U>>, i: int)
    ensures AllText(es, i) == Forgotten(es, i) + TextOf(es, i)
    ensures TextOf(es, i) == AllText(es, i) <==> Forgotten(es, i) == ""
  {
    if es != [] && !(Last(es).BlockStart? && Last(es).index == i) {
      KeptIff(Init(es), i);
    }
  }

  /** The input: one delta before its block's start is forgotten, after it it is kept. */
  lemma EarlyDeltaIsForgotten<U>(es: seq<Event<U>>, d: Event<U>, h: Header)
    requires d.Delta?
    ensures TextOf(es + [d, BlockStart(d.index, h)], d.index) == ""
    ensures TextOf(es + [BlockStart(d.index, h), d], d.index) == Piece(d.text, d.partialJson)
  {
    var a, b := es + [d, BlockStart(d.index, h)], es + [BlockStart(d.index, h), d];
    assert Last(a) == BlockStart(d.index, h) && Last(b) == d;
    assert Init(b) == es + [BlockStart(d.index, h)] && Last(Init(b)) == BlockStart(d.index, h);
  }

  // ── the partial text of an aborted stream ──

  function PartialOver<U>(es: seq<Event<U>>, order: seq<int>): string {
    if order == [] then ""
    else
      var i := order[|order| - 1];
      PartialOver(es, order[..|order| - 1]) + if HeaderOf(es, i).kind == "text" then TextOf(es, i) else ""
  }

  function PartialText<U>(es: seq<Event<U>>): string { PartialOver(es, Order(es)) }

  lemma {:induction false} SamePartial<U>(a: seq<Event<U>>, b: seq<Event<U>>, order: seq<int>)
    requires forall k :: 0 <= k < |order| ==>
      HeaderOf(a, order[k]) == HeaderOf(b, order[k]) && TextOf(a, order[k]) == TextOf(b, order[k])
    ensures PartialOver(a, order) == PartialOver(b, order)
  {
    if order != [] { SamePartial(a, b, order[..|order| - 1]); }
  }

  // ── the code ──

  datatype Block = Block(header: Header, parts: seq<string>)

  ghost predicate Tracks<U>(es: seq<Event<U>>, blocks: map<int, Block>, order: seq<int>) {
    && order == Order(es)
    && (forall i :: i in order <==> i in blocks)
    && (forall i :: i in blocks ==> blocks[i].header == HeaderOf(es, i) && Join(blocks[i].parts) == TextOf(es, i))
  }

  /** An index not yet seen has neither header nor text. */
  lemma {:induction false} Unseen<U>(es: seq<Event<U>>, i: int)
    requires i !in Order(es)
    ensures HeaderOf(es, i) == TEXT && TextOf(es, i) == ""
  {
    if es != [] { Unseen(Init(es), i); }
  }

  lemma TracksStart<U>(es: seq<Event<U>>, blocks: map<int, Block>, order: seq<int>, i: int, h: Header)
    requires Tracks(es, blocks, order)
    ensures Tracks(es + [BlockStart(i, h)], blocks[i := Block(h, [])], if i in blocks then order else order + [i])
  {
    assert Init(es + [BlockStart(i, h)]) == es;
  }

  function Extend(b: Block, piece: string): (r: Block)
    ensures r.header == b.header && Join(r.parts) == Join(b.parts) + piece
  {
    JoinPush(b.parts, piece);
    if piece == "" then b else b.(parts := b.parts + [piece])
  }

  lemma AfterDelta<U>(es: seq<Event<U>>, d: Event<U>)
    requires d.Delta?
    ensures var es', i := es + [d], d.index;
      && Order(es') == (if i in Order(es) then Order(es) else Order(es) + [i])
      && (forall j :: HeaderOf(es', j) == HeaderOf(es, j))
      && (forall j :: j != i ==> TextOf(es', j) == TextOf(es, j))
      && TextOf(es', i) == TextOf(es, i) + Piece(d.text, d.partialJson)
  {
    var es' := es + [d];
    assert Init(es') == es && Last(es') == d;
    forall j | j != d.index
      ensures TextOf(es', j) == TextOf(es, j)
    {
      assert TextOf(es, j) + "" == TextOf(es, j);
    }
  }

  lemma TracksDelta<U>(es: seq<Event<U>>, blocks: map<int, Block>, order: seq<int>, d: Event<U>)
    requires Tracks(es, blocks, order) && d.Delta?
    ensures var i, piece := d.index, Piece(d.text, d.partialJson);
      && (i in blocks ==> Tracks(es + [d], blocks[i := Extend(blocks[i], piece)], order))
      && (i !in blocks ==> Tracks(es + [d], blocks[i := Extend(Block(TEXT, []), piece)], order + [i]))
  {
    AfterDelta(es, d);
    if d.index !in blocks { Unseen(es, d.index); }
  }

  lemma TracksOther<U>(es: seq<Event<U>>, e: Event<U>, blocks: map<int, Block>, order: seq<int>)
    requires Tracks(es, blocks, order) && !e.BlockStart? && !e.Delta?
    ensures Tracks(es + [e], blocks, order)
  {
    assert Init(es + [e]) == es;
  }

  lemma TracksAt<U>(es: seq<Event<U>>, blocks: map<int, Block>, order: seq<int>, k: nat)
    requires Tracks(es, blocks, order) && k < |order|
    ensures order[k] in blocks && blocks[order[k]].header == HeaderOf(es, order[k])
    ensures Join(blocks[order[k]].parts) == TextOf(es, order[k])
  {
    var i: int := order[k];
    assert i in order;
  }

  datatype Summary<U> = Summary(
    model: Option<string>, id: Option<string>, startUsage: Option<U>, stop: Option<string>, output: Option<int>)

  function SummaryOf<U>(es: seq<Event<U>>): Summary<U> {
    Summary(ModelOf(es), IdOf(es), UsageOf(es), StopOf(es), OutputOf(es))
  }

  lemma SummaryStep<U>(es: seq<Event<U>>, e: Event<U>)
    ensures var (s, s') := (SummaryOf(es), SummaryOf(es + [e]));
      match e
      case MessageStart(m, id, u) => s' == s.(model := OrElse(m, s.model), id := OrElse(id, s.id), startUsage := u)
      case MessageDelta(stop, o) =>
        s' == s.(stop := OrElse(stop, s.stop), output := if o.Some? then o else s.output)
      case _ => s' == s
  {
    assert Init(es + [e]) == es;
  }

  datatype Drained<U, J> = Complete(message: Message<U, J>) | TimedOut(partialText: string, chunks: nat)

  /** events is what the pump handed over; timedOut tells whether it then gave up waiting. */
  method Accumulate<U, J>(events: seq<Event<U>>, timedOut: bool, parse: string -> Option<J>, specModel: string)
    returns (r: Drained<U, J>)
    ensures r == if timedOut then TimedOut(PartialText(events), |events|)
                 else Complete(Assembled(events, parse, specModel))
  {
    var blocks: map<int, Block>, order: seq<int> := map[], [];
    var model: Option<string>, id: Option<string>, stop: Option<string> := None, None, None;
    var startUsage: Option<U>, output: Option<int> := None, None;
    var chunks := 0;
    while chunks < |events|
      invariant 0 <= chunks <= |events|
      invariant Tracks(events[..chunks], blocks, order)
      invariant Summary(model, id, startUsage, stop, output) == SummaryOf(events[..chunks])
    {
      var e := events[chunks];
      ghost var seen := events[..chunks];
      chunks := chunks + 1;
      assert events[..chunks] == seen + [e];
      SummaryStep(seen, e);
      match e {
        case MessageStart(m, messageId, u) =>
          TracksOther(seen, e, blocks, order);
          model := OrElse(m, model);
          id := OrElse(messageId, id);
          startUsage := u;
        case BlockStart(i, h) =>
          TracksStart(seen, blocks, order, i, h);
          if i !in blocks { order := order + [i]; }
          blocks := blocks[i := Block(h, [])];
        case Delta(i, text, partialJson) =>
          TracksDelta(seen, blocks, order, e);
          if i !in blocks {
            order := order + [i];
            blocks := blocks[i := Block(TEXT, [])];
          }
          blocks := blocks[i := Extend(blocks[i], Piece(text, partialJson))];
        case MessageDelta(s, o) =>
          TracksOther(seen, e, blocks, order);
          stop := OrElse(s, stop);
          if o.Some? { output := o; }
        case Ping =>
          TracksOther(seen, e, blocks, order);
      }
    }
    assert events[..chunks] == events;
    if timedOut {
      var partial := JoinTexts(events, blocks, order);
      return TimedOut(partial, chunks);
    }
    var content := BuildContent(events, blocks, order, parse);
    r := Complete(Message(content, stop, output, OrElse(model, Some(specModel)).value, id, startUsage, chunks));
  }

  lemma ContentStep<U, J>(es: seq<Event<U>>, blocks: map<int, Block>, order: seq<int>, k: nat,
                          parse: string -> Option<J>)
    requires Tracks(es, blocks, order) && k < |order|
    ensures order[k] in blocks && |ContentOf(es, parse)| == |order|
    ensures ContentOf(es, parse)[..k + 1]
      == ContentOf(es, parse)[..k] + [MakeContent(blocks[order[k]].header, Join(blocks[order[k]].parts), parse)]
  {
    TracksAt(es, blocks, order, k);
  }

  /** The message's blocks in order of first occurrence, their JSON parsed only now. */
  method BuildContent<U, J>(ghost events: seq<Event<U>>, blocks: map<int, Block>, order: seq<int>,
                            parse: string -> Option<J>) returns (content: seq<Content<J>>)
    requires Tracks(events, blocks, order)
    ensures content == ContentOf(events, parse)
  {
    content := [];
    var k := 0;
    while k < |order|
      invariant 0 <= k <= |order|
      invariant content == ContentOf(events, parse)[..k]
    {
      ContentStep(events, blocks, order, k, parse);
      var b := blocks[order[k]];
      content := content + [MakeContent(b.header, Join(b.parts), parse)];
      k := k + 1;
    }
  }

  /** _partial_text */
  method JoinTexts<U>(ghost events: seq<Event<U>>, blocks: map<int, Block>, order: seq<int>)
    returns (text: string)
    requires Tracks(events, blocks, order)
    ensures text == PartialText(events)
  {
    text := "";
    var k := 0;
    while k < |order|
      invariant 0 <= k <= |order|
      invariant text == PartialOver(events, order[..k])
    {
      TracksAt(events, blocks, order, k);
      var b := blocks[order[k]];
      if b.header.kind == "text" { text := text + Join(b.parts); }
      assert order[..k + 1][..k] == order[..k];
      k := k + 1;
    }
    assert order[..k] == order;
  }
}
