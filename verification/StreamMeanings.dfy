/** What each kind of event carries: which tools are started under which names, when events go out, and which usage
    closes a stream. */
module StreamMeanings {
  import opened Seqs
  import opened StreamEvents
  import opened AnthropicStream

  function IsStart(): Event -> bool {
    (e: Event) => e.ToolStart?
  }

  lemma StartsConcat(a: seq<Event>, b: seq<Event>)
    ensures Filter(a + b, IsStart()) == Filter(a, IsStart()) + Filter(b, IsStart())
  {
    FilterConcat(a, b, IsStart());
  }

  lemma NoStarts(es: seq<Event>)
    requires forall e :: e in es ==> !e.ToolStart?
    ensures Filter(es, IsStart()) == []
  {
    FilterNone(es, IsStart());
  }

  // ----- OpenAI: starts -----

  /** One start for each delta with an id, under the name sent with it. */
  function StartsSent(ds: seq<ToolDelta>): seq<Event> {
    if ds == [] then []
    else (if ds[0].id != "" then [ToolStart(if ds[0].name == "" then "?" else ds[0].name, ds[0].id)] else [])
         + StartsSent(ds[1..])
  }

  lemma {:induction false} StartsSentConcat(a: seq<ToolDelta>, b: seq<ToolDelta>)
    ensures StartsSent(a + b) == StartsSent(a) + StartsSent(b)
  {
    if a == [] { assert a + b == b; } else { assert (a + b)[1..] == a[1..] + b; StartsSentConcat(a[1..], b); }
  }

  lemma DeltaStarts(tools: seq<Tool>, d: ToolDelta)
    ensures Filter(DeltaEvents(tools, d), IsStart()) == StartsSent([d])
  {
    var inputs := InputEvents(Tracked(tools, d), d);
    StartsConcat(StartEvents(d), inputs);
    NoStarts(inputs);
    assert [d][1..] == [];
    if d.id != "" { assert StartEvents(d)[1..] == []; }
  }

  lemma {:induction false} CallsStarts(tools: seq<Tool>, ds: seq<ToolDelta>)
    ensures Filter(CallsEvents(tools, ds), IsStart()) == StartsSent(ds)
    decreases |ds|
  {
    if ds == [] {
      NoStarts(CallsEvents(tools, ds));
    } else {
      hide DeltaEvents, Tracked;
      var after := Tracked(tools, ds[0]);
      DeltaStarts(tools, ds[0]);
      CallsStarts(after, ds[1..]);
      StartsConcat(DeltaEvents(tools, ds[0]), CallsEvents(after, ds[1..]));
      assert ds == [ds[0]] + ds[1..];
      StartsSentConcat([ds[0]], ds[1..]);
    }
  }

  /** The events of the first chunk, its text and then its tool calls, and those of the others. */
  lemma FirstChunk(tools: seq<Tool>, cs: seq<Chunk>)
    requires cs != []
    ensures ChunksEvents(tools, cs) == SayEvents(ContentOf(cs[0])) + CallsEvents(tools, CallsOf(cs[0]))
                                       + ChunksEvents(TrackedAll(tools, CallsOf(cs[0])), cs[1..])
  {
    hide SayEvents, ContentOf, CallsEvents, CallsOf, TrackedAll;
  }

  lemma NoChunks(tools: seq<Tool>)
    ensures ChunksEvents(tools, []) == [] && FinalTools(tools, []) == tools
    ensures AllCalls([]) == [] && StartsSent([]) == [] && Filter([], IsStart()) == []
  {
  }

  lemma {:induction false} ChunksStarts(tools: seq<Tool>, cs: seq<Chunk>)
    ensures Filter(ChunksEvents(tools, cs), IsStart()) == StartsSent(AllCalls(cs))
    decreases |cs|
  {
    hide CallsEvents, ChunksEvents, TrackedAll, CallsOf, ContentOf, SayEvents, StartsSent, Filter;
    if cs == [] {
      NoChunks(tools);
    } else {
      var say, calls := SayEvents(ContentOf(cs[0])), CallsOf(cs[0]);
      var after := TrackedAll(tools, calls);
      CallsStarts(tools, calls);
      ChunksStarts(after, cs[1..]);
      SayingStartsNothing(ContentOf(cs[0]));
      FirstChunk(tools, cs);
      StartsConcat(say, CallsEvents(tools, calls));
      StartsConcat(say + CallsEvents(tools, calls), ChunksEvents(after, cs[1..]));
      StartsSentConcat(calls, AllCalls(cs[1..]));
    }
  }

  lemma SayingStartsNothing(content: string)
    ensures Filter(SayEvents(content), IsStart()) == []
  {
    NoStarts(SayEvents(content));
  }

  /** A stream starts exactly the tools the provider names, in that order, failing or not; a missing name is `?`. */
  lemma {:induction false} OpenAIStarts(cs: seq<Chunk>, raises: bool)
    ensures Filter(OpenAIEvents(cs, raises), IsStart()) == StartsSent(AllCalls(cs))
  {
    hide ChunksEvents, FinalTools, UsageSeen, StartsSent, AllCalls, EndEvents;
    ChunksStarts([], cs);
    var body := ChunksEvents([], cs);
    EventsStartWithBody(cs, raises);
    var end := OpenAIEvents(cs, raises)[|body|..];
    assert OpenAIEvents(cs, raises) == body + end;
    EndsAreNoStarts(FinalTools([], cs));
    NothingStreamed();
    var usage := UsageSeen((0, 0), cs);
    if raises || cs == [] { assert end == [ErrorEvent, Done(usage)]; } else {
      assert end == EndEvents(FinalTools([], cs)) + [Done(if cs[|cs| - 1].usage.Some? then cs[|cs| - 1].usage.value else usage)];
    }
    NoStarts(end);
    StartsConcat(body, end);
  }

  lemma EndsAreNoStarts(tools: seq<Tool>)
    ensures forall e :: e in EndEvents(tools) ==> e.ToolEnd?
  {
  }

  // ----- OpenAI: when events go out -----

  lemma {:induction false} ChunksConcat(tools: seq<Tool>, a: seq<Chunk>, b: seq<Chunk>)
    ensures ChunksEvents(tools, a + b) == ChunksEvents(tools, a) + ChunksEvents(FinalTools(tools, a), b)
    decreases |a|
  {
    hide ChunkEvents, TrackedAll, CallsOf;
    if a == [] {
      assert a + b == b;
    } else {
      assert (a + b)[1..] == a[1..] + b;
      ChunksConcat(TrackedAll(tools, CallsOf(a[0])), a[1..], b);
    }
  }

  /** What a stream has yielded after some chunks, which is what it yields before it fails there, it has yielded
      whatever comes later; of the next chunk, the text goes out first. */
  lemma {:induction false} OpenAIYieldsAsItGoes(cs: seq<Chunk>, c: Chunk, later: seq<Chunk>, raises: bool)
    ensures var sent := OpenAIEvents(cs, true); var all := OpenAIEvents(cs + [c] + later, raises);
      && |sent| >= 2 && sent[|sent| - 2..][0] == ErrorEvent && sent[..|sent| - 2] <= all
      && (c.Delta? && c.content != "" ==> |sent| - 2 < |all| && all[|sent| - 2] == TextEvent(c.content))
  {
    hide ChunksEvents, FinalTools, UsageSeen, EndEvents, CallsEvents;
    ChunksConcat([], cs + [c], later);
    ChunksConcat([], cs, [c]);
    OneChunk(FinalTools([], cs), c);
    EventsStartWithBody(cs + [c] + later, raises);
    var sent, body := OpenAIEvents(cs, true), ChunksEvents([], cs);
    assert sent[..|sent| - 2] == body;
  }

  lemma OneChunk(tools: seq<Tool>, c: Chunk)
    ensures ChunksEvents(tools, [c]) == SayEvents(ContentOf(c)) + CallsEvents(tools, CallsOf(c))
  {
    hide CallsEvents;
    assert [c][1..] == [];
  }

  // ----- OpenAI: usage -----

  /** The closing `done` carries the usage of the last chunk, if the stream did not fail and that has one; otherwise
      that of the latest chunk without choices that has one, and zero if there is none. */
  lemma {:induction false} OpenAIUsage(cs: seq<Chunk>, raises: bool, i: nat)
    requires i < |cs| ==> cs[i].NoChoices? && cs[i].usage.Some?
    requires i <= |cs| && forall k :: 0 <= k < |cs| && (k > i || i == |cs|) ==> !(cs[k].NoChoices? && cs[k].usage.Some?)
    ensures var es := OpenAIEvents(cs, raises);
      es != [] && es[|es| - 1] == Done(
        if !raises && cs != [] && cs[|cs| - 1].usage.Some? then cs[|cs| - 1].usage.value
        else if i < |cs| then cs[i].usage.value else (0, 0))
  {
    hide ChunksEvents, FinalTools, EndEvents;
    if i < |cs| { LatestUsage((0, 0), cs, i); } else { NoUsage((0, 0), cs); }
  }

  lemma {:induction false} NoUsage(u: Usage, cs: seq<Chunk>)
    requires forall k :: 0 <= k < |cs| ==> !(cs[k].NoChoices? && cs[k].usage.Some?)
    ensures UsageSeen(u, cs) == u
    decreases |cs|
  {
    if cs != [] { NoUsage(u, cs[1..]); }
  }

  lemma {:induction false} LatestUsage(u: Usage, cs: seq<Chunk>, i: nat)
    requires i < |cs| && cs[i].NoChoices? && cs[i].usage.Some?
    requires forall k :: i < k < |cs| ==> !(cs[k].NoChoices? && cs[k].usage.Some?)
    ensures UsageSeen(u, cs) == cs[i].usage.value
    decreases |cs|
  {
    if i == 0 {
      NoUsage(cs[0].usage.value, cs[1..]);
    } else {
      LatestUsage(if cs[0].NoChoices? && cs[0].usage.Some? then cs[0].usage.value else u, cs[1..], i - 1);
    }
  }

  // ----- Anthropic -----

  function BlocksSent(items: seq<Item>): seq<Event> {
    if items == [] then []
    else (if items[0].BlockStart? && items[0].block.Some?
          then [ToolStart(items[0].block.value.0, items[0].block.value.1)] else []) + BlocksSent(items[1..])
  }

  lemma {:induction false} ItemsStarts(open: map<int, Block>, items: seq<Item>)
    ensures Filter(ItemsEvents(open, items), IsStart()) == BlocksSent(items)
    decreases |items|
  {
    if items == [] {
      NoStarts(ItemsEvents(open, items));
    } else {
      var after := TableAfter(open, items[0]);
      ItemsStarts(after, items[1..]);
      hide TableAfter, BlocksSent;
      ItemStarts(open, items[0], items);
      StartsConcat(ItemEvents(open, items[0]), ItemsEvents(after, items[1..]));
    }
  }

  lemma ItemStarts(open: map<int, Block>, it: Item, items: seq<Item>)
    requires items != [] && items[0] == it
    ensures BlocksSent(items) == Filter(ItemEvents(open, it), IsStart()) + BlocksSent(items[1..])
  {
    if it.BlockStart? && it.block.Some? {
      OneStart(it.block.value.0, it.block.value.1);
    } else {
      NoStarts(ItemEvents(open, it));
    }
  }

  lemma OneStart(tool: string, id: string)
    ensures Filter([ToolStart(tool, id)], IsStart()) == [ToolStart(tool, id)]
  {
    assert [ToolStart(tool, id)][1..] == [];
  }

  /** A stream starts exactly the tool blocks the provider starts, in that order, failing or not. */
  lemma {:induction false} AnthropicStarts(items: seq<Item>, final: Option<Usage>)
    ensures Filter(AnthropicEvents(items, final), IsStart()) == BlocksSent(items)
  {
    hide ItemsEvents, BlocksSent;
    var end := if final.Some? then [Done(final.value)] else [ErrorEvent, Done((0, 0))];
    ItemsStarts(map[], items);
    NoStarts(end);
    StartsConcat(ItemsEvents(map[], items), end);
  }

  lemma {:induction false} ItemsConcat(open: map<int, Block>, a: seq<Item>, b: seq<Item>)
    ensures ItemsEvents(open, a + b) == ItemsEvents(open, a) + ItemsEvents(TableAtEnd(open, a), b)
    decreases |a|
  {
    hide ItemEvents, TableAfter;
    if a == [] {
      assert a + b == b;
    } else {
      assert (a + b)[1..] == a[1..] + b;
      ItemsConcat(TableAfter(open, a[0]), a[1..], b);
    }
  }

  /** What a stream has yielded after some typed events it has yielded whatever comes later; the closing `done` carries
      the usage of the final message, or zero after a failure. */
  lemma {:induction false} AnthropicYieldsAsItGoes(items: seq<Item>, later: seq<Item>, final: Option<Usage>)
    ensures var sent := AnthropicEvents(items, None); var all := AnthropicEvents(items + later, final);
      && |sent| >= 2 && sent[|sent| - 2] == ErrorEvent && sent[..|sent| - 2] <= all
      && all[|all| - 1] == Done(if final.Some? then final.value else (0, 0))
      && (final.None? ==> |all| >= 2 && all[|all| - 2] == ErrorEvent)
  {
    hide ItemsEvents, TableAtEnd;
    ItemsConcat(map[], items, later);
    var sent := AnthropicEvents(items, None);
    assert sent[..|sent| - 2] == ItemsEvents(map[], items);
  }

  // ----- names -----

  /** Every event about a tool names it as its start did. */
  ghost predicate NamedAsStarted(es: seq<Event>) {
    forall e :: e in es && (e.ToolInput? || e.ToolEnd?) ==> (e.tool, e.id) == ("?", "") || ToolStart(e.tool, e.id) in es
  }

  ghost predicate Rooted(tools: seq<Tool>, es: seq<Event>) {
    && NamedAsStarted(es)
    && forall t :: t in tools ==> ToolStart(t.name, t.id) in es
  }

  lemma {:induction false} SlotIsTool(tools: seq<Tool>, index: int)
    ensures Known(tools, index) ==> tools[Slot(tools, index)] in tools
  {
  }

  lemma RegisterHolds(tools: seq<Tool>, t: Tool)
    ensures forall x :: x in Register(tools, t) ==> x == t || x in tools
  {
  }

  lemma DeltaStaysRooted(tools: seq<Tool>, d: ToolDelta, es: seq<Event>)
    requires Rooted(tools, es)
    ensures Rooted(Tracked(tools, d), es + DeltaEvents(tools, d))
  {
    var after := Tracked(tools, d);
    hide Slot, Register;
    RegisterHolds(tools, Tool(d.index, NameOr(d.name), d.id));
    SlotIsTool(after, d.index);
    var start := ToolStart(NameOr(d.name), d.id);
    assert d.id != "" ==> start in StartEvents(d);
    assert forall t :: t in after ==> ToolStart(t.name, t.id) in es + StartEvents(d);
  }

  lemma {:induction false} CallsStayRooted(tools: seq<Tool>, ds: seq<ToolDelta>, es: seq<Event>)
    requires Rooted(tools, es)
    ensures Rooted(TrackedAll(tools, ds), es + CallsEvents(tools, ds))
    decreases |ds|
  {
    if ds == [] {
      assert es + CallsEvents(tools, ds) == es;
    } else {
      hide Rooted, DeltaEvents, Tracked;
      DeltaStaysRooted(tools, ds[0], es);
      CallsStayRooted(Tracked(tools, ds[0]), ds[1..], es + DeltaEvents(tools, ds[0]));
      assert es + CallsEvents(tools, ds)
          == es + DeltaEvents(tools, ds[0]) + CallsEvents(Tracked(tools, ds[0]), ds[1..]);
    }
  }

  lemma SayingStaysRooted(tools: seq<Tool>, content: string, es: seq<Event>)
    requires Rooted(tools, es)
    ensures Rooted(tools, es + SayEvents(content))
  {
  }

  lemma {:induction false} ChunksStayRooted(tools: seq<Tool>, cs: seq<Chunk>, es: seq<Event>)
    requires Rooted(tools, es)
    ensures Rooted(FinalTools(tools, cs), es + ChunksEvents(tools, cs))
    decreases |cs|
  {
    hide Rooted, CallsEvents, ChunksEvents, TrackedAll, CallsOf, ContentOf, SayEvents;
    if cs == [] {
      NoChunks(tools);
      assert es + ChunksEvents(tools, cs) == es;
    } else {
      FirstChunk(tools, cs);
      var say, calls := SayEvents(ContentOf(cs[0])), CallsOf(cs[0]);
      var after := TrackedAll(tools, calls);
      SayingStaysRooted(tools, ContentOf(cs[0]), es);
      CallsStayRooted(tools, calls, es + say);
      ChunksStayRooted(after, cs[1..], es + say + CallsEvents(tools, calls));
      assert es + ChunksEvents(tools, cs) == es + say + CallsEvents(tools, calls) + ChunksEvents(after, cs[1..]);
    }
  }

  /** Input and end of a tool call name it as its start did; input for an index never started goes to `?`. */
  lemma {:induction false} OpenAINamesAgree(cs: seq<Chunk>, raises: bool)
    ensures NamedAsStarted(OpenAIEvents(cs, raises))
  {
    hide ChunksEvents, FinalTools, UsageSeen;
    var body := ChunksEvents([], cs);
    ChunksStayRooted([], cs, []);
    assert [] + body == body;
    EventsStartWithBody(cs, raises);
    var es := OpenAIEvents(cs, raises);
    forall e | e in es && (e.ToolInput? || e.ToolEnd?) ensures (e.tool, e.id) == ("?", "") || ToolStart(e.tool, e.id) in es {
      if e in body {
        assert (e.tool, e.id) == ("?", "") || ToolStart(e.tool, e.id) in body;
      } else {
        NothingStreamed();
        assert e in EndEvents(FinalTools([], cs));
        var t :| t in FinalTools([], cs) && e == ToolEnd(t.name, t.id);
      }
    }
  }

  ghost predicate BlocksRooted(open: map<int, Block>, es: seq<Event>) {
    && NamedAsStarted(es)
    && forall i :: i in open ==> ToolStart(open[i].0, open[i].1) in es
  }

  lemma ItemStaysRooted(open: map<int, Block>, it: Item, es: seq<Event>)
    requires BlocksRooted(open, es)
    ensures BlocksRooted(TableAfter(open, it), es + ItemEvents(open, it))
  {
    var more := ItemEvents(open, it);
    if it.BlockStart? && it.block.Some? { assert ToolStart(it.block.value.0, it.block.value.1) in more; }
  }

  lemma {:induction false} ItemsStayRooted(open: map<int, Block>, items: seq<Item>, es: seq<Event>)
    requires BlocksRooted(open, es)
    ensures BlocksRooted(TableAtEnd(open, items), es + ItemsEvents(open, items))
    decreases |items|
  {
    if items == [] {
      assert es + ItemsEvents(open, items) == es;
    } else {
      hide BlocksRooted, ItemEvents, TableAfter;
      ItemStaysRooted(open, items[0], es);
      ItemsStayRooted(TableAfter(open, items[0]), items[1..], es + ItemEvents(open, items[0]));
      assert es + ItemsEvents(open, items)
          == es + ItemEvents(open, items[0]) + ItemsEvents(TableAfter(open, items[0]), items[1..]);
    }
  }

  lemma {:induction false} AnthropicNamesAgree(items: seq<Item>, final: Option<Usage>)
    ensures NamedAsStarted(AnthropicEvents(items, final))
  {
    hide ItemsEvents, TableAtEnd;
    ItemsStayRooted(map[], items, []);
    assert [] + ItemsEvents(map[], items) == ItemsEvents(map[], items);
  }
}
