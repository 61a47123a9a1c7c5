/** Turning provider chunks into stream events: text, tool brackets, and one closing `done`. */
module StreamEvents {
  import opened Seqs

  /** Input and output tokens. */
  type Usage = (int, int)

  datatype Event =
    | TextEvent(text: string)
    | ToolStart(tool: string, id: string)
    | ToolInput(tool: string, id: string, delta: string)
    | ToolEnd(tool: string, id: string)
    | ErrorEvent
    | Done(usage: Usage)

  // ----- what consumers rely on -----

  /** Read left to right: a tool id starts once, takes input only while open, ends once, and nothing is open
      at the end. `open` and `used` are the ids already open and already started. */
  predicate Bracketed(open: set<string>, used: set<string>, es: seq<Event>)
    decreases |es|
  {
    if es == [] then open == {} else
    match es[0]
    case ToolStart(_, id) => id !in used && Bracketed(open + {id}, used + {id}, es[1..])
    case ToolInput(_, id, _) => id in open && Bracketed(open, used, es[1..])
    case ToolEnd(_, id) => id in open && Bracketed(open - {id}, used, es[1..])
    case TextEvent(_) => Bracketed(open, used, es[1..])
    case ErrorEvent => Bracketed(open, used, es[1..])
    case Done(_) => Bracketed(open, used, es[1..])
  }

  /** The events end with `done` and have no other. */
  predicate DoneOnceLast(es: seq<Event>) {
    es != [] && es[|es| - 1].Done? && forall i :: 0 <= i < |es| - 1 ==> !es[i].Done?
  }

  function TextOf(es: seq<Event>): string {
    if es == [] then "" else (if es[0].TextEvent? then es[0].text else "") + TextOf(es[1..])
  }

  /** All input passed to a tool call, joined. */
  function InputOf(es: seq<Event>, id: string): string {
    if es == [] then ""
    else (if es[0].ToolInput? && es[0].id == id then es[0].delta else "") + InputOf(es[1..], id)
  }

  /** What bracketing means for positions: every start has exactly one end of its id, later on, and the
      input of that id lies strictly between the two. */
  lemma {:induction false} BracketsPair(open: set<string>, used: set<string>, es: seq<Event>, i: nat)
    returns (j: nat)
    requires Bracketed(open, used, es) && open <= used && i < |es| && es[i].ToolStart?
    ensures i < j < |es| && es[j].ToolEnd? && es[j].id == es[i].id
    ensures forall k :: 0 <= k < |es| && k != j ==> !(es[k].ToolEnd? && es[k].id == es[i].id)
    ensures forall k :: 0 <= k < |es| && es[k].ToolInput? && es[k].id == es[i].id ==> i < k < j
    ensures forall k :: 0 <= k < |es| && k != i ==> !(es[k].ToolStart? && es[k].id == es[i].id)
    ensures es[i].id !in used
    decreases |es|
  {
    var rest := es[1..];
    assert forall k :: 0 < k < |es| ==> es[k] == rest[k - 1];
    var (o, u) := Opened(open, used, es[0]);
    if i == 0 {
      var id := es[0].id;
      j := EndOfOpen(o, u, rest, id);
      j := j + 1;
    } else {
      j := BracketsPair(o, u, rest, i - 1);
      j := j + 1;
      assert es[i] == rest[i - 1];
    }
  }

  function Opened(open: set<string>, used: set<string>, e: Event): (set<string>, set<string>) {
    match e
    case ToolStart(_, id) => (open + {id}, used + {id})
    case ToolEnd(_, id) => (open - {id}, used)
    case _ => (open, used)
  }

  /** An open id ends exactly once, takes no input afterwards, and does not start again. */
  lemma {:induction false} EndOfOpen(open: set<string>, used: set<string>, es: seq<Event>, id: string) returns (j: nat)
    requires Bracketed(open, used, es) && open <= used && id in open
    ensures j < |es| && es[j].ToolEnd? && es[j].id == id
    ensures forall k :: 0 <= k < |es| && k != j ==> !(es[k].ToolEnd? && es[k].id == id)
    ensures forall k :: 0 <= k < |es| && es[k].ToolInput? && es[k].id == id ==> k < j
    ensures forall k :: 0 <= k < |es| ==> !(es[k].ToolStart? && es[k].id == id)
    decreases |es|
  {
    var rest := es[1..];
    assert forall k :: 0 < k < |es| ==> es[k] == rest[k - 1];
    var (o, u) := Opened(open, used, es[0]);
    if es[0].ToolEnd? && es[0].id == id {
      j := 0;
      NeverAgain(o, u, rest, id);
    } else {
      j := EndOfOpen(o, u, rest, id);
      j := j + 1;
    }
  }

  lemma {:induction false} NeverAgain(open: set<string>, used: set<string>, es: seq<Event>, id: string)
    requires Bracketed(open, used, es) && id in used && id !in open
    ensures forall k :: 0 <= k < |es| ==>
      !((es[k].ToolEnd? || es[k].ToolInput? || es[k].ToolStart?) && es[k].id == id)
    decreases |es|
  {
    if es != [] {
      var rest := es[1..];
      assert forall k :: 0 < k < |es| ==> es[k] == rest[k - 1];
      var (o, u) := Opened(open, used, es[0]);
      NeverAgain(o, u, rest, id);
    }
  }

  // ----- OpenAI -----

  /** One partial tool call; absent strings are empty. */
  datatype ToolDelta = ToolDelta(index: int, id: string, name: string, arguments: string)

  datatype Chunk =
    | NoChoices(usage: Option<Usage>)
    | NoDelta(usage: Option<Usage>)
    | Delta(content: string, calls: seq<ToolDelta>, usage: Option<Usage>)

  /** A started tool: `tool_states` as an ordered dictionary. */
  datatype Tool = Tool(index: int, name: string, id: string)

  function Slot(tools: seq<Tool>, index: int): (i: nat)
    ensures i <= |tools| && (i < |tools| ==> tools[i].index == index)
    ensures i == |tools| ==> forall k :: 0 <= k < |tools| ==> tools[k].index != index
  {
    if tools == [] || tools[0].index == index then 0 else 1 + Slot(tools[1..], index)
  }

  predicate Known(tools: seq<Tool>, index: int) {
    Slot(tools, index) < |tools|
  }

  /** A dictionary assignment keeps the place of an existing key. */
  function Register(tools: seq<Tool>, t: Tool): seq<Tool> {
    var i := Slot(tools, t.index);
    if i < |tools| then tools[i := t] else tools + [t]
  }

  function NameOr(name: string): string {
    if name == "" then "?" else name
  }

  function Tracked(tools: seq<Tool>, d: ToolDelta): seq<Tool> {
    if d.id != "" then Register(tools, Tool(d.index, NameOr(d.name), d.id)) else tools
  }

  function StartEvents(d: ToolDelta): seq<Event> {
    if d.id != "" then [ToolStart(NameOr(d.name), d.id)] else []
  }

  /** tools is the registry after the delta's own start, if it has one. */
  function InputEvents(tools: seq<Tool>, d: ToolDelta): seq<Event> {
    if d.arguments == "" then []
    else if Known(tools, d.index) then
      var t := tools[Slot(tools, d.index)];
      [ToolInput(t.name, t.id, d.arguments)]
    else [ToolInput("?", "", d.arguments)]
  }

  function DeltaEvents(tools: seq<Tool>, d: ToolDelta): seq<Event> {
    StartEvents(d) + InputEvents(Tracked(tools, d), d)
  }

  function CallsEvents(tools: seq<Tool>, ds: seq<ToolDelta>): seq<Event>
    decreases |ds|
  {
    if ds == [] then [] else DeltaEvents(tools, ds[0]) + CallsEvents(Tracked(tools, ds[0]), ds[1..])
  }

  function TrackedAll(tools: seq<Tool>, ds: seq<ToolDelta>): seq<Tool>
    decreases |ds|
  {
    if ds == [] then tools else TrackedAll(Tracked(tools, ds[0]), ds[1..])
  }

  function CallsOf(c: Chunk): seq<ToolDelta> {
    if c.Delta? then c.calls else []
  }

  function ContentOf(c: Chunk): string {
    if c.Delta? then c.content else ""
  }

  function SayEvents(content: string): seq<Event> {
    if content == "" then [] else [TextEvent(content)]
  }

  function ChunkEvents(tools: seq<Tool>, c: Chunk): seq<Event> {
    SayEvents(ContentOf(c)) + CallsEvents(tools, CallsOf(c))
  }

  function ChunksEvents(tools: seq<Tool>, cs: seq<Chunk>): seq<Event>
    decreases |cs|
  {
    if cs == [] then []
    else ChunkEvents(tools, cs[0]) + ChunksEvents(TrackedAll(tools, CallsOf(cs[0])), cs[1..])
  }

  function FinalTools(tools: seq<Tool>, cs: seq<Chunk>): seq<Tool>
    decreases |cs|
  {
    if cs == [] then tools else FinalTools(TrackedAll(tools, CallsOf(cs[0])), cs[1..])
  }

  function EndEvents(tools: seq<Tool>): seq<Event> {
    Map(tools, (t: Tool) => ToolEnd(t.name, t.id))
  }

  /** The usage seen in chunks without choices. */
  function UsageSeen(u: Usage, cs: seq<Chunk>): Usage
    decreases |cs|
  {
    if cs == [] then u
    else UsageSeen(if cs[0].NoChoices? && cs[0].usage.Some? then cs[0].usage.value else u, cs[1..])
  }

  /** The whole event stream. `raises` says that the provider fails after these chunks. With no chunk at all
      the code after the loop refers to a variable never bound, which is reported as an error too. */
  function OpenAIEvents(cs: seq<Chunk>, raises: bool): seq<Event> {
    var body := ChunksEvents([], cs);
    var usage := UsageSeen((0, 0), cs);
    if raises then body + [ErrorEvent, Done(usage)]
    else if cs == [] then [ErrorEvent, Done(usage)]
    else
      var last := cs[|cs| - 1].usage;
      body + EndEvents(FinalTools([], cs)) + [Done(if last.Some? then last.value else usage)]
  }

  method StreamDelta(tools0: seq<Tool>, d: ToolDelta) returns (tools: seq<Tool>, es: seq<Event>)
    ensures tools == Tracked(tools0, d) && es == DeltaEvents(tools0, d)
  {
    tools, es := tools0, [];
    if d.id != "" {
      var name := if d.name != "" then d.name else "?";
      tools := Register(tools, Tool(d.index, name, d.id));
      es := es + [ToolStart(name, d.id)];
    }
    if d.arguments != "" {
      var i := Slot(tools, d.index);
      if i < |tools| {
        es := es + [ToolInput(tools[i].name, tools[i].id, d.arguments)];
      } else {
        es := es + [ToolInput("?", "", d.arguments)];
      }
    }
  }

  /** The inner loop over the partial tool calls of one chunk. */
  method StreamCalls(tools0: seq<Tool>, calls: seq<ToolDelta>) returns (tools: seq<Tool>, es: seq<Event>)
    ensures tools == TrackedAll(tools0, calls) && es == CallsEvents(tools0, calls)
  {
    hide Tracked, DeltaEvents;
    tools, es := tools0, [];
    assert calls[0..] == calls;
    for k := 0 to |calls|
      invariant CallsEvents(tools0, calls) == es + CallsEvents(tools, calls[k..])
      invariant TrackedAll(tools0, calls) == TrackedAll(tools, calls[k..])
    {
      assert calls[k..][1..] == calls[k + 1..];
      var more;
      tools, more := StreamDelta(tools, calls[k]);
      es := es + more;
    }
  }

  method StreamChunk(tools0: seq<Tool>, c: Chunk) returns (tools: seq<Tool>, es: seq<Event>)
    ensures tools == TrackedAll(tools0, CallsOf(c)) && es == ChunkEvents(tools0, c)
  {
    tools, es := tools0, [];
    if !c.Delta? { return; }
    if c.content != "" {
      es := [TextEvent(c.content)];
    }
    var more;
    tools, more := StreamCalls(tools, c.calls);
    es := es + more;
  }

  /** The loop over the chunks, up to the end of the stream or its failure. */
  method StreamChunks(cs: seq<Chunk>) returns (tools: seq<Tool>, usage: Usage, es: seq<Event>)
    ensures es == ChunksEvents([], cs) && usage == UsageSeen((0, 0), cs) && tools == FinalTools([], cs)
  {
    hide ChunkEvents, TrackedAll, CallsOf;
    es, usage, tools := [], (0, 0), [];
    assert cs[0..] == cs;
    for i := 0 to |cs|
      invariant ChunksEvents([], cs) == es + ChunksEvents(tools, cs[i..])
      invariant UsageSeen((0, 0), cs) == UsageSeen(usage, cs[i..])
      invariant FinalTools([], cs) == FinalTools(tools, cs[i..])
    {
      var c := cs[i];
      assert cs[i..][1..] == cs[i + 1..];
      if c.NoChoices? && c.usage.Some? {
        usage := c.usage.value;
      }
      var more;
      tools, more := StreamChunk(tools, c);
      es := es + more;
    }
  }

  method StreamOpenAIEvents(cs: seq<Chunk>, raises: bool) returns (es: seq<Event>)
    ensures es == OpenAIEvents(cs, raises)
  {
    hide ChunksEvents, UsageSeen, FinalTools, EndEvents;
    var tools, usage, body := StreamChunks(cs);
    if raises {
      return body + [ErrorEvent, Done(usage)];
    }
    var ends := FlushTools(tools);
    es := body + ends;
    if cs == [] {
      NothingStreamed();
      return es + [ErrorEvent, Done(usage)];
    }
    if cs[|cs| - 1].usage.Some? {
      usage := cs[|cs| - 1].usage.value;
    }
    es := es + [Done(usage)];
  }

  lemma NothingStreamed()
    ensures ChunksEvents([], []) == [] && EndEvents(FinalTools([], [])) == []
  {
  }

  method FlushTools(tools: seq<Tool>) returns (es: seq<Event>)
    ensures es == EndEvents(tools)
  {
    es := [];
    for i := 0 to |tools|
      invariant es == EndEvents(tools[..i])
    {
      es := es + [ToolEnd(tools[i].name, tools[i].id)];
    }
    assert tools[..|tools|] == tools;
  }

  // ----- every stream ends with one done -----

  ghost predicate NoDone(es: seq<Event>) {
    forall i :: 0 <= i < |es| ==> !es[i].Done?
  }

  lemma NoDoneConcat(a: seq<Event>, b: seq<Event>)
    requires NoDone(a) && NoDone(b)
    ensures NoDone(a + b)
  {
  }

  lemma {:induction false} CallsNoDone(tools: seq<Tool>, ds: seq<ToolDelta>)
    ensures NoDone(CallsEvents(tools, ds))
    decreases |ds|
  {
    if ds != [] {
      CallsNoDone(Tracked(tools, ds[0]), ds[1..]);
      NoDoneConcat(DeltaEvents(tools, ds[0]), CallsEvents(Tracked(tools, ds[0]), ds[1..]));
    }
  }

  lemma {:induction false} ChunksNoDone(tools: seq<Tool>, cs: seq<Chunk>)
    ensures NoDone(ChunksEvents(tools, cs))
    decreases |cs|
  {
    if cs != [] {
      var after := TrackedAll(tools, CallsOf(cs[0]));
      CallsNoDone(tools, CallsOf(cs[0]));
      ChunksNoDone(after, cs[1..]);
      NoDoneConcat(SayEvents(ContentOf(cs[0])), CallsEvents(tools, CallsOf(cs[0])));
      NoDoneConcat(ChunkEvents(tools, cs[0]), ChunksEvents(after, cs[1..]));
    }
  }

  /** For every provider stream, failing or not, the output ends with exactly one `done`. */
  lemma {:induction false} OpenAIDoneOnceLast(cs: seq<Chunk>, raises: bool)
    ensures DoneOnceLast(OpenAIEvents(cs, raises))
  {
    ChunksNoDone([], cs);
    hide ChunksEvents, FinalTools, UsageSeen;
    NoDoneConcat(ChunksEvents([], cs), EndEvents(FinalTools([], cs)));
  }

  // ----- tool brackets -----

  function AllCalls(cs: seq<Chunk>): seq<ToolDelta> {
    if cs == [] then [] else CallsOf(cs[0]) + AllCalls(cs[1..])
  }

  /** Ids are never issued twice, and arguments come with or after the start of their index. */
  predicate WellFormed(tools: seq<Tool>, used: set<string>, ds: seq<ToolDelta>)
    decreases |ds|
  {
    ds != [] ==>
      var d := ds[0];
      && (d.id != "" ==> d.id !in used)
      && (d.arguments != "" ==> d.id != "" || Known(tools, d.index))
      && WellFormed(Tracked(tools, d), if d.id != "" then used + {d.id} else used, ds[1..])
  }

  /** No index is started while it already has a tool. */
  predicate NoRestart(tools: seq<Tool>, ds: seq<ToolDelta>)
    decreases |ds|
  {
    ds != [] ==>
      && (ds[0].id != "" ==> !Known(tools, ds[0].index))
      && NoRestart(Tracked(tools, ds[0]), ds[1..])
  }

  ghost predicate Registry(tools: seq<Tool>) {
    && (forall i, j :: 0 <= i < j < |tools| ==> tools[i].index != tools[j].index)
    && (forall i, j :: 0 <= i < j < |tools| ==> tools[i].id != tools[j].id)
  }

  function IdsOf(tools: seq<Tool>): set<string> {
    set t | t in tools :: t.id
  }

  function StartIds(ds: seq<ToolDelta>): set<string> {
    set d | d in ds && d.id != "" :: d.id
  }

  lemma IdsOfAppend(tools: seq<Tool>, t: Tool)
    ensures IdsOf(tools + [t]) == IdsOf(tools) + {t.id}
  {
    var r := tools + [t];
    assert forall x :: x in r <==> x in tools || x == t;
  }

  lemma {:induction false} RegisterAppends(tools: seq<Tool>, t: Tool)
    requires Registry(tools) && t.id !in IdsOf(tools) && !Known(tools, t.index)
    ensures Registry(tools + [t]) && IdsOf(tools + [t]) == IdsOf(tools) + {t.id}
    ensures Slot(tools + [t], t.index) == |tools|
  {
    IdsOfAppend(tools, t);
    var r := tools + [t];
    forall k | 0 <= k < |tools| ensures r[k] == tools[k] && tools[k].id != t.id && tools[k].index != t.index {
      assert tools[k] in tools;
    }
    SlotOf(r, |tools|);
  }

  lemma {:induction false} RegisterReplaces(tools: seq<Tool>, t: Tool, i: nat)
    requires Registry(tools) && t.id !in IdsOf(tools) && i < |tools| && tools[i].index == t.index
    ensures Registry(tools[i := t]) && IdsOf(tools[i := t]) <= IdsOf(tools) + {t.id}
    ensures t.id in IdsOf(tools[i := t]) && tools[i].id in IdsOf(tools) && tools[i].id !in IdsOf(tools[i := t])
    ensures Slot(tools[i := t], t.index) == i
  {
    var r := tools[i := t];
    assert tools[i] in tools && forall x | x in tools :: x.id in IdsOf(tools);
    assert forall k :: 0 <= k < |r| ==> r[k] == if k == i then t else tools[k];
    forall x | x in r ensures x.id != tools[i].id {
      var k :| 0 <= k < |r| && r[k] == x;
      if k != i { assert tools[k].id != tools[i].id; }
    }
    assert r[i] in r;
    SlotOf(r, i);
  }

  lemma {:induction false} RegisterNew(tools: seq<Tool>, t: Tool, used: set<string>)
    requires Registry(tools) && IdsOf(tools) <= used && t.id !in used
    ensures var r := Register(tools, t);
      && Registry(r) && IdsOf(r) <= used + {t.id}
      && Known(r, t.index) && r[Slot(r, t.index)] == t && t.id in IdsOf(r)
      && (IdsOf(r) == IdsOf(tools) + {t.id} <==> !Known(tools, t.index))
      && (!Known(tools, t.index) ==> r == tools + [t])
  {
    hide Registry, IdsOf;
    var i := Slot(tools, t.index);
    if i < |tools| {
      RegisterReplaces(tools, t, i);
    } else {
      RegisterAppends(tools, t);
    }
  }

  lemma {:induction false} SlotOf(tools: seq<Tool>, i: nat)
    requires Registry(tools) && i < |tools|
    ensures Slot(tools, tools[i].index) == i
  {
    var s := Slot(tools, tools[i].index);
    assert s < |tools| && tools[s].index == tools[i].index;
  }

  /** One delta leaves open exactly what it starts; nothing is lost unless it restarts an index. */
  lemma {:induction false} DeltaBrackets(tools: seq<Tool>, d: ToolDelta, open: set<string>, used: set<string>,
                                         later: seq<Event>)
    requires Registry(tools) && IdsOf(tools) <= open <= used
    requires (d.id != "" ==> d.id !in used) && (d.arguments != "" ==> d.id != "" || Known(tools, d.index))
    ensures var started := if d.id != "" then {d.id} else {};
      && Registry(Tracked(tools, d)) && IdsOf(Tracked(tools, d)) <= open + started
      && (Bracketed(open, used, DeltaEvents(tools, d) + later) <==> Bracketed(open + started, used + started, later))
      && (open + started == IdsOf(Tracked(tools, d)) <==>
          open == IdsOf(tools) && (d.id != "" ==> !Known(tools, d.index)))
  {
    var started := if d.id != "" then {d.id} else {};
    var t := Tracked(tools, d);
    if d.id != "" {
      RegisterNew(tools, Tool(d.index, NameOr(d.name), d.id), open);
      assert d.id !in IdsOf(tools) && d.id !in open;
    } else {
      assert open + started == open && used + started == used;
    }
    var input := InputEvents(t, d);
    if d.arguments != "" {
      assert t[Slot(t, d.index)] in t;
      assert (input + later)[1..] == later;
    } else {
      assert input + later == later;
    }
    assert Bracketed(open + started, used + started, input + later) == Bracketed(open + started, used + started, later);
    if d.id != "" {
      assert DeltaEvents(tools, d) + later == [ToolStart(NameOr(d.name), d.id)] + (input + later);
      assert ([ToolStart(NameOr(d.name), d.id)] + (input + later))[1..] == input + later;
    } else {
      assert DeltaEvents(tools, d) + later == input + later;
    }
  }

  lemma {:induction false} CallsBrackets(tools: seq<Tool>, ds: seq<ToolDelta>, open: set<string>, used: set<string>,
                                         later: seq<Event>)
    requires Registry(tools) && IdsOf(tools) <= open <= used && WellFormed(tools, used, ds)
    ensures var started := StartIds(ds);
      && Registry(TrackedAll(tools, ds)) && IdsOf(TrackedAll(tools, ds)) <= open + started
      && (Bracketed(open, used, CallsEvents(tools, ds) + later) <==> Bracketed(open + started, used + started, later))
      && (open + started == IdsOf(TrackedAll(tools, ds)) <==> open == IdsOf(tools) && NoRestart(tools, ds))
    decreases |ds|
  {
    hide Bracketed, Registry, DeltaEvents, IdsOf, Known, StartIds, Tracked;
    if ds == [] {
      assert CallsEvents(tools, ds) + later == later;
      NothingStarts(open);
      NothingStarts(used);
    } else {
      var d, rest := ds[0], ds[1..];
      var one := if d.id != "" then {d.id} else {};
      var t := Tracked(tools, d);
      StartedSplit(ds, open);
      StartedSplit(ds, used);
      var tail := CallsEvents(t, rest) + later;
      assert CallsEvents(tools, ds) + later == DeltaEvents(tools, d) + tail;
      DeltaBrackets(tools, d, open, used, tail);
      CallsBrackets(t, rest, open + one, used + one, later);
    }
  }

  lemma NothingRestarts(tools: seq<Tool>)
    ensures NoRestart(tools, [])
  {
  }

  lemma NothingStarts(open: set<string>)
    ensures open + StartIds([]) == open
  {
  }

  lemma StartedSplit(ds: seq<ToolDelta>, open: set<string>)
    requires ds != []
    ensures var one := if ds[0].id != "" then {ds[0].id} else {};
      && open + StartIds(ds) == open + one + StartIds(ds[1..])
      && open + one == if ds[0].id != "" then open + {ds[0].id} else open
  {
    assert ds == [ds[0]] + ds[1..];
    StartIdsCons(ds[0], ds[1..]);
  }

  lemma StartIdsCons(d: ToolDelta, rest: seq<ToolDelta>)
    ensures StartIds([d] + rest) == (if d.id != "" then {d.id} else {}) + StartIds(rest)
  {
    assert forall x | x in rest :: x in [d] + rest;
    assert d in [d] + rest;
  }

  lemma StartIdsConcat(a: seq<ToolDelta>, b: seq<ToolDelta>)
    ensures StartIds(a + b) == StartIds(a) + StartIds(b)
  {
    assert forall x | x in a + b :: x in a || x in b;
  }

  lemma {:induction false} WellFormedConcat(tools: seq<Tool>, used: set<string>, a: seq<ToolDelta>, b: seq<ToolDelta>)
    ensures WellFormed(tools, used, a + b) <==>
      WellFormed(tools, used, a) && WellFormed(TrackedAll(tools, a), used + StartIds(a), b)
    ensures NoRestart(tools, a + b) <==> NoRestart(tools, a) && NoRestart(TrackedAll(tools, a), b)
    decreases |a|
  {
    if a == [] {
      assert a + b == b && used + StartIds(a) == used;
    } else {
      var d, rest := a[0], a[1..];
      assert a == [d] + rest && (a + b)[1..] == rest + b;
      StartIdsCons(d, rest);
      var u := if d.id != "" then used + {d.id} else used;
      assert used + StartIds(a) == u + StartIds(rest);
      WellFormedConcat(Tracked(tools, d), u, rest, b);
    }
  }

  lemma {:induction false} ChunksBrackets(tools: seq<Tool>, cs: seq<Chunk>, open: set<string>, used: set<string>,
                                          later: seq<Event>)
    requires Registry(tools) && IdsOf(tools) <= open <= used && WellFormed(tools, used, AllCalls(cs))
    ensures var started := StartIds(AllCalls(cs));
      && Registry(FinalTools(tools, cs)) && IdsOf(FinalTools(tools, cs)) <= open + started
      && (Bracketed(open, used, ChunksEvents(tools, cs) + later) <==> Bracketed(open + started, used + started, later))
      && (open + started == IdsOf(FinalTools(tools, cs)) <==> open == IdsOf(tools) && NoRestart(tools, AllCalls(cs)))
    decreases |cs|
  {
    hide Bracketed, Registry, IdsOf, StartIds, NoRestart, ChunkEvents, TrackedAll;
    if cs == [] {
      assert ChunksEvents(tools, cs) + later == later;
      NothingStarts(open);
      NothingStarts(used);
      assert NoRestart(tools, []) by { NothingRestarts(tools); }
    } else {
      var calls, rest := CallsOf(cs[0]), cs[1..];
      var t := TrackedAll(tools, calls);
      WellFormedConcat(tools, used, calls, AllCalls(rest));
      StartIdsConcat(calls, AllCalls(rest));
      assert open + StartIds(AllCalls(cs)) == open + StartIds(calls) + StartIds(AllCalls(rest));
      assert used + StartIds(AllCalls(cs)) == used + StartIds(calls) + StartIds(AllCalls(rest));
      var tail := ChunksEvents(t, rest) + later;
      assert ChunksEvents(tools, cs) + later == ChunkEvents(tools, cs[0]) + tail;
      ChunkBrackets(tools, cs[0], open, used, tail);
      ChunksBrackets(t, rest, open + StartIds(calls), used + StartIds(calls), later);
    }
  }

  lemma {:induction false} ChunkBrackets(tools: seq<Tool>, c: Chunk, open: set<string>, used: set<string>,
                                         later: seq<Event>)
    requires Registry(tools) && IdsOf(tools) <= open <= used && WellFormed(tools, used, CallsOf(c))
    ensures var started := StartIds(CallsOf(c));
      && Registry(TrackedAll(tools, CallsOf(c))) && IdsOf(TrackedAll(tools, CallsOf(c))) <= open + started
      && (Bracketed(open, used, ChunkEvents(tools, c) + later) <==> Bracketed(open + started, used + started, later))
      && (open + started == IdsOf(TrackedAll(tools, CallsOf(c))) <==> open == IdsOf(tools) && NoRestart(tools, CallsOf(c)))
  {
    hide Bracketed, Registry, IdsOf, StartIds, WellFormed, NoRestart, CallsEvents, TrackedAll, SayEvents, CallsOf;
    var calls := CallsOf(c);
    assert ChunkEvents(tools, c) + later == SayEvents(ContentOf(c)) + (CallsEvents(tools, calls) + later);
    SayingBrackets(ContentOf(c), open, used, CallsEvents(tools, calls) + later);
    CallsBrackets(tools, calls, open, used, later);
  }

  lemma SayingBrackets(content: string, open: set<string>, used: set<string>, later: seq<Event>)
    ensures Bracketed(open, used, SayEvents(content) + later) == Bracketed(open, used, later)
  {
    if content == "" {
      assert SayEvents(content) + later == later;
    } else {
      assert (SayEvents(content) + later)[1..] == later;
    }
  }

  lemma {:induction false} EndsBracket(tools: seq<Tool>, open: set<string>, used: set<string>, usage: Usage)
    requires Registry(tools) && IdsOf(tools) <= open
    ensures Bracketed(open, used, EndEvents(tools) + [Done(usage)]) <==> open == IdsOf(tools)
    decreases |tools|
  {
    if tools == [] {
      assert EndEvents(tools) + [Done(usage)] == [Done(usage)] && [Done(usage)][1..] == [];
    } else {
      RegistryTail(tools);
      hide Registry, IdsOf;
      var t, rest := tools[0], tools[1..];
      var es := EndEvents(tools) + [Done(usage)];
      assert es[1..] == EndEvents(rest) + [Done(usage)];
      EndsBracket(rest, open - {t.id}, used, usage);
      assert open == IdsOf(tools) <==> open - {t.id} == IdsOf(rest);
    }
  }

  lemma IdsOfCons(t: Tool, rest: seq<Tool>)
    ensures IdsOf([t] + rest) == {t.id} + IdsOf(rest)
  {
    assert forall x :: x in [t] + rest <==> x in rest || x == t;
  }

  lemma NoSuchId(tools: seq<Tool>, id: string)
    requires forall k :: 0 <= k < |tools| ==> tools[k].id != id
    ensures id !in IdsOf(tools)
  {
  }

  lemma RegistryTail(tools: seq<Tool>)
    requires Registry(tools) && tools != []
    ensures Registry(tools[1..]) && tools[0].id !in IdsOf(tools[1..])
    ensures IdsOf(tools) == {tools[0].id} + IdsOf(tools[1..])
  {
    var t, rest := tools[0], tools[1..];
    assert tools == [t] + rest;
    IdsOfCons(t, rest);
    forall k | 0 <= k < |rest| ensures rest[k] == tools[k + 1] && rest[k].id != t.id {
      assert tools[0].id != tools[k + 1].id;
    }
    NoSuchId(rest, t.id);
  }

  // ----- proper brackets need well-formed deltas -----

  /** A delta whose events are bracketed carries a fresh id, and arguments only for a known index. */
  lemma DeltaIsWellFormed(tools: seq<Tool>, d: ToolDelta, open: set<string>, used: set<string>, later: seq<Event>)
    requires IdsOf(tools) <= open <= used && "" !in open && Bracketed(open, used, DeltaEvents(tools, d) + later)
    ensures d.id != "" ==> d.id !in used
    ensures d.arguments != "" ==> d.id != "" || Known(tools, d.index)
  {
    var es := DeltaEvents(tools, d) + later;
    assert d.id != "" ==> es[0] == ToolStart(NameOr(d.name), d.id);
    assert d.id == "" && d.arguments != "" ==> es[0] == InputEvents(tools, d)[0];
  }

  lemma {:induction false} BracketedIsWellFormed(tools: seq<Tool>, ds: seq<ToolDelta>, open: set<string>,
                                                 used: set<string>, later: seq<Event>)
    requires Registry(tools) && IdsOf(tools) <= open <= used && "" !in open
    requires Bracketed(open, used, CallsEvents(tools, ds) + later)
    ensures WellFormed(tools, used, ds)
    decreases |ds|
  {
    hide Bracketed, Registry, DeltaEvents, IdsOf, Known, Tracked;
    if ds != [] {
      var d, rest := ds[0], ds[1..];
      var one := if d.id != "" then {d.id} else {};
      var tail := CallsEvents(Tracked(tools, d), rest) + later;
      assert CallsEvents(tools, ds) + later == DeltaEvents(tools, d) + tail;
      DeltaIsWellFormed(tools, d, open, used, tail);
      DeltaBrackets(tools, d, open, used, tail);
      assert used + one == if d.id != "" then used + {d.id} else used;
      BracketedIsWellFormed(Tracked(tools, d), rest, open + one, used + one, later);
    }
  }

  /** What follows may be replaced by anything bracketed alike. */
  lemma {:induction false} BracketedAlike(x: seq<Event>, a: seq<Event>, b: seq<Event>, open: set<string>, used: set<string>)
    requires forall o, u :: Bracketed(o, u, a) == Bracketed(o, u, b)
    ensures Bracketed(open, used, x + a) == Bracketed(open, used, x + b)
    decreases |x|
  {
    if x == [] {
      assert x + a == a && x + b == b;
    } else {
      assert (x + a)[1..] == x[1..] + a && (x + b)[1..] == x[1..] + b;
      var (o, u) := Opened(open, used, x[0]);
      BracketedAlike(x[1..], a, b, o, u);
    }
  }

  /** Text and chunk boundaries do not matter to the brackets. */
  lemma {:induction false} ChunksBracketAsCalls(tools: seq<Tool>, cs: seq<Chunk>, later: seq<Event>)
    ensures forall open, used :: Bracketed(open, used, ChunksEvents(tools, cs) + later)
                              == Bracketed(open, used, CallsEvents(tools, AllCalls(cs)) + later)
    decreases |cs|
  {
    hide Bracketed, CallsEvents, TrackedAll, SayEvents, CallsOf;
    if cs == [] {
      NoCalls(tools);
    } else {
      var calls, rest := CallsOf(cs[0]), cs[1..];
      var t := TrackedAll(tools, calls);
      ChunksBracketAsCalls(t, rest, later);
      CallsConcat(tools, calls, AllCalls(rest));
      var a, b := ChunksEvents(t, rest) + later, CallsEvents(t, AllCalls(rest)) + later;
      assert ChunksEvents(tools, cs) + later == SayEvents(ContentOf(cs[0])) + (CallsEvents(tools, calls) + a);
      assert CallsEvents(tools, AllCalls(cs)) + later == CallsEvents(tools, calls) + b;
      forall open, used ensures Bracketed(open, used, ChunksEvents(tools, cs) + later)
                             == Bracketed(open, used, CallsEvents(tools, AllCalls(cs)) + later)
      {
        SayingBrackets(ContentOf(cs[0]), open, used, CallsEvents(tools, calls) + a);
        BracketedAlike(CallsEvents(tools, calls), a, b, open, used);
      }
    }
  }

  lemma NoCalls(tools: seq<Tool>)
    ensures CallsEvents(tools, []) == []
  {
  }

  lemma {:induction false} BracketedNeedsWellFormed(cs: seq<Chunk>, later: seq<Event>)
    requires Bracketed({}, {}, ChunksEvents([], cs) + later)
    ensures WellFormed([], {}, AllCalls(cs))
  {
    hide Bracketed, ChunksEvents, CallsEvents, AllCalls, WellFormed;
    ChunksBracketAsCalls([], cs, later);
    assert IdsOf([]) == {};
    BracketedIsWellFormed([], AllCalls(cs), {}, {}, later);
  }

  /** On a stream that does not fail, every tool is properly bracketed if and only if ids are never issued twice,
      arguments come with or after the start of their index, and no index is started twice. */
  lemma {:induction false} OpenAIBrackets(cs: seq<Chunk>)
    ensures Bracketed({}, {}, OpenAIEvents(cs, false)) <==>
      WellFormed([], {}, AllCalls(cs)) && NoRestart([], AllCalls(cs))
  {
    hide Bracketed, ChunksEvents, FinalTools, UsageSeen, WellFormed, NoRestart, AllCalls, StartIds;
    if cs == [] {
      NothingSent();
      ErrorBrackets({}, UsageSeen((0, 0), []));
      return;
    }
    var last := cs[|cs| - 1].usage;
    var usage := if last.Some? then last.value else UsageSeen((0, 0), cs);
    var tools := FinalTools([], cs);
    var later := EndEvents(tools) + [Done(usage)];
    var started := StartIds(AllCalls(cs));
    assert OpenAIEvents(cs, false) == ChunksEvents([], cs) + later;
    if Bracketed({}, {}, OpenAIEvents(cs, false)) { BracketedNeedsWellFormed(cs, later); }
    if WellFormed([], {}, AllCalls(cs)) {
      assert IdsOf([]) == {} && {} + started == started;
      ChunksBrackets([], cs, {}, {}, later);
      EndsBracket(tools, started, started, usage);
    }
  }

  lemma NothingSent()
    ensures WellFormed([], {}, AllCalls([])) && NoRestart([], AllCalls([]))
  {
  }

  /** A failing stream never ends its tools: it is properly bracketed if and only if it started none. */
  lemma {:induction false} FailedOpenAIBrackets(cs: seq<Chunk>)
    ensures Bracketed({}, {}, OpenAIEvents(cs, true)) <==>
      WellFormed([], {}, AllCalls(cs)) && StartIds(AllCalls(cs)) == {}
  {
    hide Bracketed, ChunksEvents, FinalTools, UsageSeen, WellFormed, NoRestart, AllCalls, StartIds;
    var later := [ErrorEvent, Done(UsageSeen((0, 0), cs))];
    var started := StartIds(AllCalls(cs));
    if Bracketed({}, {}, OpenAIEvents(cs, true)) { BracketedNeedsWellFormed(cs, later); }
    if WellFormed([], {}, AllCalls(cs)) {
      assert IdsOf([]) == {} && {} + started == started;
      ChunksBrackets([], cs, {}, {}, later);
      ErrorBrackets(started, later[1].usage);
    }
  }

  lemma ErrorBrackets(open: set<string>, usage: Usage)
    ensures Bracketed(open, open, [ErrorEvent, Done(usage)]) <==> open == {}
  {
    assert [ErrorEvent, Done(usage)][1..] == [Done(usage)] && [Done(usage)][1..] == [];
    assert Bracketed(open, open, [Done(usage)]) <==> Bracketed(open, open, []);
  }

  // ----- errors -----

  ghost predicate NoError(es: seq<Event>) {
    forall i :: 0 <= i < |es| ==> !es[i].ErrorEvent?
  }

  lemma NoErrorConcat(a: seq<Event>, b: seq<Event>)
    requires NoError(a) && NoError(b)
    ensures NoError(a + b)
  {
  }

  lemma {:induction false} CallsNoError(tools: seq<Tool>, ds: seq<ToolDelta>)
    ensures NoError(CallsEvents(tools, ds))
    decreases |ds|
  {
    if ds != [] {
      CallsNoError(Tracked(tools, ds[0]), ds[1..]);
      NoErrorConcat(DeltaEvents(tools, ds[0]), CallsEvents(Tracked(tools, ds[0]), ds[1..]));
    }
  }

  lemma {:induction false} ChunksNoError(tools: seq<Tool>, cs: seq<Chunk>)
    ensures NoError(ChunksEvents(tools, cs))
    decreases |cs|
  {
    if cs != [] {
      hide CallsEvents, TrackedAll;
      var after := TrackedAll(tools, CallsOf(cs[0]));
      CallsNoError(tools, CallsOf(cs[0]));
      ChunksNoError(after, cs[1..]);
      NoErrorConcat(SayEvents(ContentOf(cs[0])), CallsEvents(tools, CallsOf(cs[0])));
      NoErrorConcat(ChunkEvents(tools, cs[0]), ChunksEvents(after, cs[1..]));
    }
  }

  /** A stream reports an error exactly when the provider fails, or when it sends no chunk at all: the code after the
      loop reads a variable that only the loop binds. */
  lemma {:induction false} OpenAIErrorsExactly(cs: seq<Chunk>, raises: bool)
    ensures NoError(OpenAIEvents(cs, raises)) <==> !raises && cs != []
  {
    hide ChunksEvents, FinalTools, UsageSeen;
    ChunksNoError([], cs);
    var es := OpenAIEvents(cs, raises);
    if raises || cs == [] {
      assert es[|es| - 2] == ErrorEvent;
    } else {
      NoErrorConcat(ChunksEvents([], cs), EndEvents(FinalTools([], cs)));
    }
  }

  // ----- arguments -----

  function ArgsOf(ds: seq<ToolDelta>, index: int): string {
    if ds == [] then "" else (if ds[0].index == index then ds[0].arguments else "") + ArgsOf(ds[1..], index)
  }

  lemma {:induction false} InputConcat(a: seq<Event>, b: seq<Event>, id: string)
    ensures InputOf(a + b, id) == InputOf(a, id) + InputOf(b, id)
  {
    if a == [] {
      assert a + b == b;
    } else {
      assert (a + b)[1..] == a[1..] + b;
      InputConcat(a[1..], b, id);
    }
  }

  lemma {:induction false} InputAbsent(es: seq<Event>, id: string)
    requires forall i :: 0 <= i < |es| ==> !(es[i].ToolInput? && es[i].id == id)
    ensures InputOf(es, id) == ""
  {
    if es != [] {
      assert forall i :: 0 <= i < |es[1..]| ==> es[1..][i] == es[i + 1];
      InputAbsent(es[1..], id);
    }
  }

  lemma {:induction false} DeltaInput(tools: seq<Tool>, d: ToolDelta, id: string)
    ensures InputOf(DeltaEvents(tools, d), id) == InputOf(InputEvents(Tracked(tools, d), d), id)
  {
    InputConcat(StartEvents(d), InputEvents(Tracked(tools, d), d), id);
    InputAbsent(StartEvents(d), id);
  }

  /** The input events of an open tool carry exactly the arguments sent for its index from here on. */
  lemma {:induction false} OpenToolInput(tools: seq<Tool>, used: set<string>, ds: seq<ToolDelta>, t: Tool)
    requires Registry(tools) && IdsOf(tools) <= used && WellFormed(tools, used, ds) && NoRestart(tools, ds)
    requires t in tools
    ensures InputOf(CallsEvents(tools, ds), t.id) == ArgsOf(ds, t.index)
    decreases |ds|
  {
    if ds != [] {
      var d, rest := ds[0], ds[1..];
      var u := if d.id != "" then used + {d.id} else used;
      var r := Tracked(tools, d);
      if d.id != "" { RegisterNew(tools, Tool(d.index, NameOr(d.name), d.id), used); }
      assert t in r;
      OpenToolInput(r, u, rest, t);
      InputConcat(DeltaEvents(tools, d), CallsEvents(r, rest), t.id);
      DeltaInput(tools, d, t.id);
      OneInput(r, d, t);
    }
  }

  lemma OneInput(r: seq<Tool>, d: ToolDelta, t: Tool)
    requires Registry(r) && t in r && (d.arguments != "" ==> Known(r, d.index))
    ensures InputOf(InputEvents(r, d), t.id) == if d.index == t.index then d.arguments else ""
  {
    var i :| 0 <= i < |r| && r[i] == t;
    SlotOf(r, i);
    if d.arguments != "" {
      var s := Slot(r, d.index);
      assert [ToolInput(r[s].name, r[s].id, d.arguments)][1..] == [];
      if d.index != t.index { assert r[s].id != t.id; }
    }
  }

  lemma {:induction false} KnownStays(tools: seq<Tool>, ds: seq<ToolDelta>, p: nat)
    requires p < |ds| && ds[p].id != "" && NoRestart(tools, ds)
    ensures !Known(tools, ds[p].index)
    decreases |ds|
  {
    if p > 0 {
      KnownStays(Tracked(tools, ds[0]), ds[1..], p - 1);
      if Known(tools, ds[p].index) {
        TrackingKeepsKnown(tools, ds[0], ds[p].index);
      }
    }
  }

  lemma {:induction false} ListedIsKnown(tools: seq<Tool>, i: nat)
    requires i < |tools|
    ensures Known(tools, tools[i].index)
  {
    if i > 0 && tools[0].index != tools[i].index {
      ListedIsKnown(tools[1..], i - 1);
    }
  }

  lemma TrackingKeepsKnown(tools: seq<Tool>, d: ToolDelta, index: int)
    ensures Known(tools, index) ==> Known(Tracked(tools, d), index)
    ensures d.id != "" ==> Known(Tracked(tools, d), d.index)
  {
    var r := Tracked(tools, d);
    if Known(tools, index) {
      var i := Slot(tools, index);
      assert r[i].index == index;
      ListedIsKnown(r, i);
    }
    if d.id != "" {
      var t := Tool(d.index, NameOr(d.name), d.id);
      var j := Slot(tools, d.index);
      assert j < |r| && r[j] == t;
      ListedIsKnown(r, j);
    }
  }

  lemma {:induction false} FreshIdUnused(tools: seq<Tool>, used: set<string>, ds: seq<ToolDelta>, p: nat)
    requires p < |ds| && ds[p].id != "" && WellFormed(tools, used, ds)
    ensures ds[p].id !in used && (p > 0 ==> ds[0].id != ds[p].id)
    decreases |ds|
  {
    if p > 0 {
      FreshIdUnused(Tracked(tools, ds[0]), if ds[0].id != "" then used + {ds[0].id} else used, ds[1..], p - 1);
    }
  }

  lemma {:induction false} StartedToolInput(tools: seq<Tool>, used: set<string>, ds: seq<ToolDelta>, p: nat)
    requires Registry(tools) && IdsOf(tools) <= used && WellFormed(tools, used, ds) && NoRestart(tools, ds)
    requires p < |ds| && ds[p].id != ""
    ensures InputOf(CallsEvents(tools, ds), ds[p].id) == ArgsOf(ds, ds[p].index)
    decreases |ds|
  {
    hide Registry, IdsOf, InputEvents, Known;
    var d, rest := ds[0], ds[1..];
    var u := if d.id != "" then used + {d.id} else used;
    var r := Tracked(tools, d);
    var id := ds[p].id;
    if d.id != "" { RegisterNew(tools, Tool(d.index, NameOr(d.name), d.id), used); }
    InputConcat(DeltaEvents(tools, d), CallsEvents(r, rest), id);
    DeltaInput(tools, d, id);
    if p == 0 {
      var t := Tool(d.index, NameOr(d.name), d.id);
      RegisteredIsListed(tools, t);
      OpenToolInput(r, u, rest, t);
      OneInput(r, d, t);
    } else {
      assert rest[p - 1] == ds[p];
      StartedToolInput(r, u, rest, p - 1);
      FreshIdUnused(r, u, rest, p - 1);
      KnownStays(r, rest, p - 1);
      TrackingKeepsKnown(tools, d, d.index);
      OthersInput(r, d, id);
    }
  }

  lemma RegisteredIsListed(tools: seq<Tool>, t: Tool)
    ensures t in Register(tools, t)
  {
    var i := Slot(tools, t.index);
    assert Register(tools, t)[i] == t;
  }

  lemma OthersInput(r: seq<Tool>, d: ToolDelta, id: string)
    requires id !in IdsOf(r) && (d.arguments != "" ==> Known(r, d.index))
    ensures InputOf(InputEvents(r, d), id) == ""
  {
    if d.arguments != "" {
      assert r[Slot(r, d.index)] in r;
    }
    InputAbsent(InputEvents(r, d), id);
  }

  lemma {:induction false} CallsConcat(tools: seq<Tool>, a: seq<ToolDelta>, b: seq<ToolDelta>)
    ensures CallsEvents(tools, a + b) == CallsEvents(tools, a) + CallsEvents(TrackedAll(tools, a), b)
    decreases |a|
  {
    hide Tracked, DeltaEvents;
    if a == [] {
      assert a + b == b;
    } else {
      assert (a + b)[1..] == a[1..] + b;
      CallsConcat(Tracked(tools, a[0]), a[1..], b);
    }
  }

  lemma {:induction false} ChunksInput(tools: seq<Tool>, cs: seq<Chunk>, id: string)
    ensures InputOf(ChunksEvents(tools, cs), id) == InputOf(CallsEvents(tools, AllCalls(cs)), id)
    decreases |cs|
  {
    if cs != [] {
      hide InputOf, CallsEvents, TrackedAll, SayEvents;
      var calls := CallsOf(cs[0]);
      var t := TrackedAll(tools, calls);
      ChunksInput(t, cs[1..], id);
      CallsConcat(tools, calls, AllCalls(cs[1..]));
      ChunkInput(tools, cs[0], id);
      InputConcat(ChunkEvents(tools, cs[0]), ChunksEvents(t, cs[1..]), id);
      InputConcat(CallsEvents(tools, calls), CallsEvents(t, AllCalls(cs[1..])), id);
    }
  }

  lemma {:induction false} ChunkInput(tools: seq<Tool>, c: Chunk, id: string)
    ensures InputOf(ChunkEvents(tools, c), id) == InputOf(CallsEvents(tools, CallsOf(c)), id)
  {
    InputAbsent(SayEvents(ContentOf(c)), id);
    hide InputOf, SayEvents, CallsEvents;
    InputConcat(SayEvents(ContentOf(c)), CallsEvents(tools, CallsOf(c)), id);
  }

  /** The deltas handed out for a tool call join to exactly the arguments the provider sent for it. */
  lemma {:induction false} OpenAIInputIsArguments(cs: seq<Chunk>, p: nat)
    requires WellFormed([], {}, AllCalls(cs)) && NoRestart([], AllCalls(cs)) && cs != []
    requires p < |AllCalls(cs)| && AllCalls(cs)[p].id != ""
    ensures InputOf(OpenAIEvents(cs, false), AllCalls(cs)[p].id) == ArgsOf(AllCalls(cs), AllCalls(cs)[p].index)
  {
    hide InputOf, CallsEvents, ChunksEvents, FinalTools, UsageSeen, WellFormed, NoRestart, AllCalls, ArgsOf;
    var id := AllCalls(cs)[p].id;
    var last := cs[|cs| - 1].usage;
    var end := EndEvents(FinalTools([], cs)) + [Done(if last.Some? then last.value else UsageSeen((0, 0), cs))];
    assert OpenAIEvents(cs, false) == ChunksEvents([], cs) + end;
    InputConcat(ChunksEvents([], cs), end, id);
    InputAbsent(end, id);
    ChunksInput([], cs, id);
    StartedToolInput([], {}, AllCalls(cs), p);
  }

  // ----- the text-only wrapper -----

  /** What the text-only wrappers yield: pieces of text, then the usage. */
  datatype Shown = Piece(text: string) | Finished(usage: Usage)

  function ShowEvents(es: seq<Event>): seq<Shown> {
    if es == [] then []
    else if es[0].TextEvent? then [Piece(es[0].text)] + ShowEvents(es[1..])
    else if es[0].Done? then [Finished(es[0].usage)]
    else ShowEvents(es[1..])
  }

  method StreamText(es: seq<Event>) returns (out: seq<Shown>)
    ensures out == ShowEvents(es)
  {
    out := [];
    assert es[0..] == es;
    for i := 0 to |es|
      invariant ShowEvents(es) == out + ShowEvents(es[i..])
    {
      assert es[i..][1..] == es[i + 1..];
      if es[i].TextEvent? {
        out := out + [Piece(es[i].text)];
      } else if es[i].Done? {
        return out + [Finished(es[i].usage)];
      }
    }
  }

  function Joined(out: seq<Shown>): string {
    if out == [] then "" else (if out[0].Piece? then out[0].text else "") + Joined(out[1..])
  }

  /** On a stream with its one `done` at the end, the wrapper yields every text piece and finishes with the
      usage, and only there. */
  lemma {:induction false} WrapperKeepsText(es: seq<Event>)
    requires DoneOnceLast(es)
    ensures Joined(ShowEvents(es)) == TextOf(es) && EndsFinished(ShowEvents(es), es[|es| - 1].usage)
  {
    hide EndsFinished, ShowEvents, Joined, TextOf;
    if es[0].Done? {
      OnlyDone(es);
    } else {
      var rest := es[1..];
      DoneInRest(es);
      WrapperKeepsText(rest);
      ShownFirst(es);
      if es[0].TextEvent? {
        PieceFirst(es[0].text, ShowEvents(rest), es[|es| - 1].usage);
      } else {
        assert [] + ShowEvents(rest) == ShowEvents(rest) && "" + TextOf(rest) == TextOf(rest);
      }
    }
  }

  lemma OnlyDone(es: seq<Event>)
    requires DoneOnceLast(es) && es[0].Done?
    ensures Joined(ShowEvents(es)) == TextOf(es) == "" && EndsFinished(ShowEvents(es), es[|es| - 1].usage)
  {
    assert es[1..] == [] && [Finished(es[0].usage)][1..] == [];
  }

  lemma DoneInRest(es: seq<Event>)
    requires DoneOnceLast(es) && !es[0].Done?
    ensures DoneOnceLast(es[1..]) && es[1..][|es| - 2] == es[|es| - 1]
  {
    assert forall i :: 0 <= i < |es| - 1 ==> es[1..][i] == es[i + 1];
  }

  lemma ShownFirst(es: seq<Event>)
    requires es != [] && !es[0].Done?
    ensures ShowEvents(es) == (if es[0].TextEvent? then [Piece(es[0].text)] else []) + ShowEvents(es[1..])
    ensures TextOf(es) == (if es[0].TextEvent? then es[0].text else "") + TextOf(es[1..])
  {
  }

  predicate EndsFinished(out: seq<Shown>, usage: Usage) {
    && out != [] && out[|out| - 1] == Finished(usage)
    && forall i :: 0 <= i < |out| - 1 ==> out[i].Piece?
  }

  lemma PieceFirst(text: string, out: seq<Shown>, usage: Usage)
    requires EndsFinished(out, usage)
    ensures EndsFinished([Piece(text)] + out, usage) && Joined([Piece(text)] + out) == text + Joined(out)
  {
    assert ([Piece(text)] + out)[1..] == out;
  }

  lemma {:induction false} TextConcat(a: seq<Event>, b: seq<Event>)
    ensures TextOf(a + b) == TextOf(a) + TextOf(b)
  {
    if a == [] {
      assert a + b == b;
    } else {
      assert (a + b)[1..] == a[1..] + b;
      TextConcat(a[1..], b);
    }
  }

  lemma {:induction false} NoText(es: seq<Event>)
    requires forall i :: 0 <= i < |es| ==> !es[i].TextEvent?
    ensures TextOf(es) == ""
  {
    if es != [] {
      assert forall i :: 0 <= i < |es[1..]| ==> es[1..][i] == es[i + 1];
      NoText(es[1..]);
    }
  }

  function Contents(cs: seq<Chunk>): string {
    if cs == [] then "" else ContentOf(cs[0]) + Contents(cs[1..])
  }

  lemma {:induction false} CallsHaveNoText(tools: seq<Tool>, ds: seq<ToolDelta>)
    ensures forall i :: 0 <= i < |CallsEvents(tools, ds)| ==> !CallsEvents(tools, ds)[i].TextEvent?
    decreases |ds|
  {
    if ds != [] {
      CallsHaveNoText(Tracked(tools, ds[0]), ds[1..]);
    }
  }

  lemma {:induction false} ChunksText(tools: seq<Tool>, cs: seq<Chunk>)
    ensures TextOf(ChunksEvents(tools, cs)) == Contents(cs)
    decreases |cs|
  {
    if cs != [] {
      hide TrackedAll, CallsEvents, TextOf, SayEvents, ChunkEvents;
      var t := TrackedAll(tools, CallsOf(cs[0]));
      ChunksText(t, cs[1..]);
      ChunkText(tools, cs[0]);
      TextConcat(ChunkEvents(tools, cs[0]), ChunksEvents(t, cs[1..]));
    }
  }

  lemma {:induction false} ChunkText(tools: seq<Tool>, c: Chunk)
    ensures TextOf(ChunkEvents(tools, c)) == ContentOf(c)
  {
    hide CallsEvents;
    CallsHaveNoText(tools, CallsOf(c));
    NoText(CallsEvents(tools, CallsOf(c)));
    TextConcat(SayEvents(ContentOf(c)), CallsEvents(tools, CallsOf(c)));
    assert SayEvents(ContentOf(c)) != [] ==> SayEvents(ContentOf(c))[1..] == [];
  }

  /** The text-only stream carries exactly the text the provider sent, also when the provider fails later. */
  lemma {:induction false} OpenAITextPreserved(cs: seq<Chunk>, raises: bool)
    ensures Joined(ShowEvents(OpenAIEvents(cs, raises))) == Contents(cs)
  {
    hide ShowEvents, Joined, TextOf, Contents, ChunksEvents, FinalTools, UsageSeen, DoneOnceLast;
    var es := OpenAIEvents(cs, raises);
    OpenAIDoneOnceLast(cs, raises);
    WrapperKeepsText(es);
    ChunksText([], cs);
    var body := ChunksEvents([], cs);
    EventsStartWithBody(cs, raises);
    var end := es[|body|..];
    assert es == body + end;
    NoText(end);
    TextConcat(body, end);
  }

  lemma EventsStartWithBody(cs: seq<Chunk>, raises: bool)
    ensures var body := ChunksEvents([], cs);
      && body <= OpenAIEvents(cs, raises)
      && forall i :: |body| <= i < |OpenAIEvents(cs, raises)| ==> !OpenAIEvents(cs, raises)[i].TextEvent?
  {
    hide ChunksEvents, FinalTools, UsageSeen;
    if cs == [] { assert ChunksEvents([], cs) == [] by { NoChunks(); } }
  }

  lemma NoChunks()
    ensures ChunksEvents([], []) == []
  {
  }
}
