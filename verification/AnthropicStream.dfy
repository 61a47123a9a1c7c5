/** The Anthropic provider: typed block events to stream events. */
module AnthropicStream {
  import opened Seqs
  import opened StreamEvents

  /** A tool block's name and id. */
  type Block = (string, string)

  datatype Item =
    | BlockStart(index: int, block: Option<Block>)
    | TextDelta(text: string)
    | JsonDelta(index: int, partial: string)
    | BlockStop(index: int)
    | Other

  // ----- the specification: one table of open tool blocks -----

  function TableAfter(open: map<int, Block>, it: Item): map<int, Block> {
    match it
    case BlockStart(i, Some(b)) => open[i := b]
    case BlockStop(i) => open - {i}
    case _ => open
  }

  function ItemEvents(open: map<int, Block>, it: Item): seq<Event> {
    match it
    case BlockStart(i, block) => if block.Some? then [ToolStart(block.value.0, block.value.1)] else []
    case TextDelta(text) => SayEvents(text)
    case JsonDelta(i, partial) =>
      var b := if i in open then open[i] else ("?", "");
      [ToolInput(b.0, b.1, partial)]
    case BlockStop(i) => if i in open then [ToolEnd(open[i].0, open[i].1)] else []
    case Other => []
  }

  function ItemsEvents(open: map<int, Block>, items: seq<Item>): seq<Event>
    decreases |items|
  {
    if items == [] then [] else ItemEvents(open, items[0]) + ItemsEvents(TableAfter(open, items[0]), items[1..])
  }

  function TableAtEnd(open: map<int, Block>, items: seq<Item>): map<int, Block>
    decreases |items|
  {
    if items == [] then open else TableAtEnd(TableAfter(open, items[0]), items[1..])
  }

  /** The whole stream; final is the usage of the provider's final message, None when the provider fails. */
  function AnthropicEvents(items: seq<Item>, final: Option<Usage>): seq<Event> {
    ItemsEvents(map[], items) + if final.Some? then [Done(final.value)] else [ErrorEvent, Done((0, 0))]
  }

  // ----- the generator, with its two dictionaries -----

  function Paired(names: map<int, string>, ids: map<int, string>): map<int, Block>
    requires names.Keys == ids.Keys
  {
    map i | i in names :: (names[i], ids[i])
  }

  method StreamItem(names0: map<int, string>, ids0: map<int, string>, it: Item)
    returns (names: map<int, string>, ids: map<int, string>, es: seq<Event>)
    requires names0.Keys == ids0.Keys
    ensures names.Keys == ids.Keys && Paired(names, ids) == TableAfter(Paired(names0, ids0), it)
    ensures es == ItemEvents(Paired(names0, ids0), it)
  {
    names, ids, es := names0, ids0, [];
    match it
    case BlockStart(i, block) =>
      if block.Some? {
        names, ids := names[i := block.value.0], ids[i := block.value.1];
        es := [ToolStart(names[i], ids[i])];
      }
    case TextDelta(text) =>
      if text != "" {
        es := [TextEvent(text)];
      }
    case JsonDelta(i, partial) =>
      var name := if i in names then names[i] else "?";
      var id := if i in ids then ids[i] else "";
      es := [ToolInput(name, id, partial)];
    case BlockStop(i) =>
      if i in names {
        es := [ToolEnd(names[i], ids[i])];
        names, ids := names - {i}, ids - {i};
      }
    case Other =>
  }

  method StreamAnthropicEvents(items: seq<Item>, final: Option<Usage>) returns (es: seq<Event>)
    ensures es == AnthropicEvents(items, final)
  {
    hide TableAfter, ItemEvents, Paired;
    es := [];
    var names: map<int, string>, ids: map<int, string> := map[], map[];
    assert items[0..] == items && Paired(names, ids) == map[] by { NothingPaired(); }
    for k := 0 to |items|
      invariant names.Keys == ids.Keys
      invariant ItemsEvents(map[], items) == es + ItemsEvents(Paired(names, ids), items[k..])
    {
      assert items[k..][1..] == items[k + 1..];
      var more;
      names, ids, more := StreamItem(names, ids, items[k]);
      es := es + more;
    }
    if final.None? {
      es := es + [ErrorEvent];
    }
    es := es + [Done(if final.Some? then final.value else (0, 0))];
  }

  lemma NothingPaired()
    ensures Paired(map[], map[]) == map[]
  {
  }

  // ----- one closing event -----

  lemma {:induction false} ItemsNoDone(open: map<int, Block>, items: seq<Item>)
    ensures NoDone(ItemsEvents(open, items))
    decreases |items|
  {
    if items != [] {
      var after := TableAfter(open, items[0]);
      ItemsNoDone(after, items[1..]);
      NoDoneConcat(ItemEvents(open, items[0]), ItemsEvents(after, items[1..]));
    }
  }

  /** For every provider stream, failing or not, the output ends with exactly one `done`. */
  lemma {:induction false} AnthropicDoneOnceLast(items: seq<Item>, final: Option<Usage>)
    ensures DoneOnceLast(AnthropicEvents(items, final))
  {
    hide ItemsEvents;
    ItemsNoDone(map[], items);
  }

  // ----- tool brackets -----

  /** Tool ids are never issued twice, and input goes only to open blocks. */
  predicate FreshAndAddressed(open: map<int, Block>, used: set<string>, items: seq<Item>)
    decreases |items|
  {
    items != [] ==>
      && (StartsTool(items[0]) ==> items[0].block.value.1 !in used)
      && (items[0].JsonDelta? ==> items[0].index in open)
      && FreshAndAddressed(TableAfter(open, items[0]), UsedAfter(used, items[0]), items[1..])
  }

  predicate StartsTool(it: Item) {
    it.BlockStart? && it.block.Some?
  }

  function UsedAfter(used: set<string>, it: Item): set<string> {
    if StartsTool(it) then used + {it.block.value.1} else used
  }

  /** No block index is started while it is still open. */
  predicate StopsBeforeRestart(open: map<int, Block>, items: seq<Item>)
    decreases |items|
  {
    items != [] ==>
      && (StartsTool(items[0]) ==> items[0].index !in open)
      && StopsBeforeRestart(TableAfter(open, items[0]), items[1..])
  }

  function OpenIds(open: map<int, Block>): set<string> {
    set i | i in open :: open[i].1
  }

  ghost predicate OneIdEach(open: map<int, Block>) {
    forall i, j :: i in open && j in open && i != j ==> open[i].1 != open[j].1
  }

  lemma StartingABlock(open: map<int, Block>, i: int, b: Block, used: set<string>)
    requires OneIdEach(open) && OpenIds(open) <= used && b.1 !in used
    ensures var after := open[i := b];
      && OneIdEach(after) && OpenIds(after) <= used + {b.1} && b.1 in OpenIds(after)
      && (used + {b.1} == OpenIds(after) <==> used == OpenIds(open) && i !in open)
  {
    var after := open[i := b];
    assert forall k :: k in open ==> open[k].1 in OpenIds(open);
    assert after[i] == b;
    if i in open {
      assert open[i].1 in used;
      assert open[i].1 !in OpenIds(after);
    } else {
      assert forall k :: k in open ==> after[k] == open[k];
      assert OpenIds(after) == OpenIds(open) + {b.1};
      assert b.1 !in OpenIds(open);
    }
  }

  lemma StoppingABlock(open: map<int, Block>, i: int, used: set<string>)
    requires OneIdEach(open) && OpenIds(open) <= used && i in open
    ensures var after := open - {i};
      && OneIdEach(after) && OpenIds(after) <= used - {open[i].1} && open[i].1 in used
      && (used - {open[i].1} == OpenIds(after) <==> used == OpenIds(open))
  {
    var after := open - {i};
    assert forall k :: k in after ==> k in open && after[k] == open[k];
    assert open[i].1 in OpenIds(open);
    forall x | x in OpenIds(open) && x != open[i].1 ensures x in OpenIds(after) {
      var k :| k in open && open[k].1 == x;
      assert k in after;
    }
    var id := open[i].1;
    assert OpenIds(after) == OpenIds(open) - {id};
    assert used == used - {id} + {id} && OpenIds(open) == OpenIds(open) - {id} + {id};
  }

  /** One item opens or closes exactly the id it names; an id is lost only when its index is restarted. */
  lemma ItemBrackets(open: map<int, Block>, it: Item, ids: set<string>, used: set<string>, later: seq<Event>)
    returns (ids': set<string>)
    requires OneIdEach(open) && OpenIds(open) <= ids <= used
    requires (StartsTool(it) ==> it.block.value.1 !in used) && (it.JsonDelta? ==> it.index in open)
    ensures var after := TableAfter(open, it);
      && OneIdEach(after) && OpenIds(after) <= ids' <= UsedAfter(used, it)
      && (Bracketed(ids, used, ItemEvents(open, it) + later) <==> Bracketed(ids', UsedAfter(used, it), later))
      && (ids' == OpenIds(after) <==> ids == OpenIds(open) && (StartsTool(it) ==> it.index !in open))
  {
    hide OneIdEach, OpenIds;
    var es := ItemEvents(open, it);
    ids' := ids;
    if StartsTool(it) {
      var b := it.block.value;
      StartingABlock(open, it.index, b, ids);
      ids' := ids + {b.1};
      assert (es + later)[1..] == later;
    } else if it.BlockStop? && it.index in open {
      StoppingABlock(open, it.index, ids);
      ids' := ids - {open[it.index].1};
      assert (es + later)[1..] == later;
    } else {
      NothingOpensOrCloses(open, it, ids, used, later);
    }
  }

  lemma NothingOpensOrCloses(open: map<int, Block>, it: Item, ids: set<string>, used: set<string>, later: seq<Event>)
    requires OpenIds(open) <= ids && (it.JsonDelta? ==> it.index in open)
    requires !StartsTool(it) && !(it.BlockStop? && it.index in open)
    ensures TableAfter(open, it) == open
    ensures Bracketed(ids, used, ItemEvents(open, it) + later) == Bracketed(ids, used, later)
  {
    var es := ItemEvents(open, it);
    if it.JsonDelta? { assert open[it.index].1 in OpenIds(open); }
    if es == [] {
      assert es + later == later;
    } else {
      assert (es + later)[1..] == later;
    }
  }

  lemma NoIdsOpen(open: map<int, Block>)
    ensures OpenIds(open) == {} <==> open == map[]
  {
    assert forall i | i in open :: open[i].1 in OpenIds(open);
    if OpenIds(open) == {} {
      assert open.Keys == {};
    }
  }

  /** Tool ids are never issued twice, and every event of input names an open id: that of its own block, or the
      empty one that stands in for an unknown block. */
  predicate Attributable(open: map<int, Block>, used: set<string>, items: seq<Item>)
    decreases |items|
  {
    items != [] ==>
      && (StartsTool(items[0]) ==> items[0].block.value.1 !in used)
      && (items[0].JsonDelta? ==> items[0].index in open || "" in OpenIds(open))
      && Attributable(TableAfter(open, items[0]), UsedAfter(used, items[0]), items[1..])
  }

  /** Input for an unknown block goes out under the empty id. */
  lemma StrayInput(open: map<int, Block>, it: Item, ids: set<string>, used: set<string>, later: seq<Event>)
    requires it.JsonDelta? && it.index !in open
    ensures TableAfter(open, it) == open && UsedAfter(used, it) == used
    ensures Bracketed(ids, used, ItemEvents(open, it) + later) <==> "" in ids && Bracketed(ids, used, later)
  {
    var es := ItemEvents(open, it);
    assert es == [ToolInput("?", "", it.partial)] && (es + later)[1..] == later;
  }

  lemma ReissuedId(open: map<int, Block>, it: Item, ids: set<string>, used: set<string>, later: seq<Event>)
    requires StartsTool(it) && it.block.value.1 in used
    ensures !Bracketed(ids, used, ItemEvents(open, it) + later)
  {
    assert (ItemEvents(open, it) + later)[0] == ToolStart(it.block.value.0, it.block.value.1);
  }

  lemma EmptyIdIn(open: map<int, Block>, ids: set<string>)
    requires OpenIds(open) <= ids
    ensures "" in OpenIds(open) ==> "" in ids
  {
  }

  /** Brackets a stream exactly when nothing is open where it starts. */
  ghost predicate ClosesNothing(later: seq<Event>) {
    forall ids, used :: Bracketed(ids, used, later) <==> ids == {}
  }

  lemma {:induction false} ItemsBracket(open: map<int, Block>, items: seq<Item>, ids: set<string>, used: set<string>,
                                        later: seq<Event>)
    requires OneIdEach(open) && OpenIds(open) <= ids <= used && ClosesNothing(later)
    ensures Bracketed(ids, used, ItemsEvents(open, items) + later) <==>
      && ids == OpenIds(open) && Attributable(open, used, items)
      && StopsBeforeRestart(open, items) && TableAtEnd(open, items) == map[]
    decreases |items|
  {
    hide Bracketed, OneIdEach, OpenIds, ItemEvents, TableAfter, UsedAfter, ClosesNothing;
    if items == [] {
      NothingBrackets(open, ids, used, later);
    } else {
      var it, rest := items[0], items[1..];
      var after := TableAfter(open, it);
      var tail := ItemsEvents(after, rest) + later;
      assert ItemsEvents(open, items) + later == ItemEvents(open, it) + tail;
      if StartsTool(it) && it.block.value.1 in used {
        ReissuedId(open, it, ids, used, tail);
      } else if it.JsonDelta? && it.index !in open {
        StrayInput(open, it, ids, used, tail);
        EmptyIdIn(open, ids);
        ItemsBracket(open, rest, ids, used, later);
      } else {
        var ids' := ItemBrackets(open, it, ids, used, tail);
        ItemsBracket(after, rest, ids', UsedAfter(used, it), later);
      }
    }
  }

  lemma NothingBrackets(open: map<int, Block>, ids: set<string>, used: set<string>, later: seq<Event>)
    requires OpenIds(open) <= ids && ClosesNothing(later)
    ensures Bracketed(ids, used, ItemsEvents(open, []) + later) <==> ids == OpenIds(open) && open == map[]
  {
    hide Bracketed;
    assert ItemsEvents(open, []) + later == later;
    NoIdsOpen(open);
  }

  lemma EndingsCloseNothing(u: Usage)
    ensures ClosesNothing([Done(u)]) && ClosesNothing([ErrorEvent, Done(u)])
  {
    forall ids, used ensures Bracketed(ids, used, [Done(u)]) <==> ids == {} {
      assert [Done(u)][1..] == [];
    }
    forall ids, used ensures Bracketed(ids, used, [ErrorEvent, Done(u)]) <==> ids == {} {
      assert [ErrorEvent, Done(u)][1..] == [Done(u)];
      assert Bracketed(ids, used, [ErrorEvent, Done(u)]) == Bracketed(ids, used, [Done(u)]);
    }
  }

  /** On a stream that does not fail, every tool is properly bracketed if and only if ids are never issued twice,
      input names open ids, no index is restarted before its stop, and every started block is stopped. */
  lemma {:induction false} AnthropicBrackets(items: seq<Item>, u: Usage)
    ensures Bracketed({}, {}, AnthropicEvents(items, Some(u))) <==>
      && Attributable(map[], {}, items)
      && StopsBeforeRestart(map[], items) && TableAtEnd(map[], items) == map[]
  {
    hide Bracketed, ItemsEvents, Attributable, StopsBeforeRestart, TableAtEnd;
    assert OpenIds(map[]) == {};
    EndingsCloseNothing(u);
    ItemsBracket(map[], items, {}, {}, [Done(u)]);
  }

  /** The same holds of a stream that fails on the way: what was started and not stopped by then stays open. */
  lemma {:induction false} FailedAnthropicBrackets(items: seq<Item>)
    ensures Bracketed({}, {}, AnthropicEvents(items, None)) <==>
      && Attributable(map[], {}, items)
      && StopsBeforeRestart(map[], items) && TableAtEnd(map[], items) == map[]
  {
    hide Bracketed, ItemsEvents, Attributable, StopsBeforeRestart, TableAtEnd;
    assert OpenIds(map[]) == {};
    EndingsCloseNothing((0, 0));
    ItemsBracket(map[], items, {}, {}, [ErrorEvent, Done((0, 0))]);
  }

  // ----- tool input -----

  /** The JSON sent to a block index up to its stop or its next start. */
  function PartialsTo(items: seq<Item>, index: int): string {
    if items == [] then ""
    else if items[0].BlockStop? && items[0].index == index then ""
    else if StartsTool(items[0]) && items[0].index == index then ""
    else (if items[0].JsonDelta? && items[0].index == index then items[0].partial else "") + PartialsTo(items[1..], index)
  }

  lemma ItemInput(open: map<int, Block>, it: Item, id: string)
    requires OneIdEach(open) && (it.JsonDelta? ==> it.index in open)
    ensures InputOf(ItemEvents(open, it), id) ==
      if it.JsonDelta? && open[it.index].1 == id then it.partial else ""
  {
    var es := ItemEvents(open, it);
    assert es != [] ==> es[1..] == [];
  }

  lemma {:induction false} ClosedInput(open: map<int, Block>, used: set<string>, items: seq<Item>, id: string)
    requires OneIdEach(open) && OpenIds(open) <= used && FreshAndAddressed(open, used, items)
    requires id in used && id !in OpenIds(open)
    ensures InputOf(ItemsEvents(open, items), id) == ""
    decreases |items|
  {
    if items != [] {
      hide OneIdEach, OpenIds, InputOf, ItemEvents;
      var it, rest := items[0], items[1..];
      var after := TableAfter(open, it);
      InputConcat(ItemEvents(open, it), ItemsEvents(after, rest), id);
      ItemInput(open, it, id);
      TableStaysGood(open, used, it);
      if it.JsonDelta? { IdIsOpen(open, it.index); }
      ClosedInput(after, UsedAfter(used, it), rest, id);
    }
  }

  lemma IdIsOpen(open: map<int, Block>, i: int)
    requires i in open
    ensures open[i].1 in OpenIds(open)
  {
  }

  lemma TableStaysGood(open: map<int, Block>, used: set<string>, it: Item)
    requires OneIdEach(open) && OpenIds(open) <= used && (StartsTool(it) ==> it.block.value.1 !in used)
    ensures OneIdEach(TableAfter(open, it)) && OpenIds(TableAfter(open, it)) <= UsedAfter(used, it)
    ensures forall id :: id in used && id !in OpenIds(open) ==> id !in OpenIds(TableAfter(open, it))
    ensures (StartsTool(it) || it.BlockStop?) && it.index in open ==>
      open[it.index].1 !in OpenIds(TableAfter(open, it)) && open[it.index].1 in used
  {
    if it.BlockStop? && it.index !in open { assert open - {it.index} == open; }
    if (StartsTool(it) || it.BlockStop?) && it.index in open { assert open[it.index].1 in OpenIds(open); }
    forall i | i in TableAfter(open, it) && !(StartsTool(it) && i == it.index)
      ensures i in open && TableAfter(open, it)[i] == open[i] && open[i].1 in OpenIds(open)
    {
    }
  }

  lemma {:induction false} OpenInput(open: map<int, Block>, used: set<string>, items: seq<Item>, i: int)
    requires OneIdEach(open) && OpenIds(open) <= used && FreshAndAddressed(open, used, items) && i in open
    ensures InputOf(ItemsEvents(open, items), open[i].1) == PartialsTo(items, i)
    decreases |items|
  {
    if items != [] {
      hide OneIdEach, OpenIds, InputOf, ItemEvents;
      var it, rest, id := items[0], items[1..], open[i].1;
      var after := TableAfter(open, it);
      InputConcat(ItemEvents(open, it), ItemsEvents(after, rest), id);
      ItemInput(open, it, id);
      TableStaysGood(open, used, it);
      if (it.BlockStop? || StartsTool(it)) && it.index == i {
        ClosedInput(after, UsedAfter(used, it), rest, id);
      } else {
        if it.JsonDelta? { DifferentIds(open, it.index, i); }
        OpenInput(after, UsedAfter(used, it), rest, i);
      }
    }
  }

  lemma DifferentIds(open: map<int, Block>, i: int, j: int)
    requires OneIdEach(open) && i in open && j in open
    ensures open[i].1 == open[j].1 <==> i == j
  {
  }

  lemma {:induction false} StartedInput(open: map<int, Block>, used: set<string>, items: seq<Item>, p: nat)
    requires OneIdEach(open) && OpenIds(open) <= used && FreshAndAddressed(open, used, items)
    requires p < |items| && StartsTool(items[p])
    ensures items[p].block.value.1 !in used
    ensures InputOf(ItemsEvents(open, items), items[p].block.value.1) == PartialsTo(items[p + 1..], items[p].index)
    decreases |items|
  {
    hide OneIdEach, OpenIds, InputOf, ItemEvents, PartialsTo;
    var it, rest, id := items[0], items[1..], items[p].block.value.1;
    var after := TableAfter(open, it);
    InputConcat(ItemEvents(open, it), ItemsEvents(after, rest), id);
    ItemInput(open, it, id);
    TableStaysGood(open, used, it);
    if p == 0 {
      OpenInput(after, UsedAfter(used, it), rest, it.index);
    } else {
      assert rest[p - 1] == items[p] && rest[p - 1 + 1..] == items[p + 1..];
      StartedInput(after, UsedAfter(used, it), rest, p - 1);
      if it.JsonDelta? { IdIsOpen(open, it.index); }
    }
  }

  /** The deltas handed out for a tool block join to exactly the JSON the provider sent for it. */
  lemma {:induction false} AnthropicInputIsArguments(items: seq<Item>, u: Usage, p: nat)
    requires FreshAndAddressed(map[], {}, items) && p < |items| && StartsTool(items[p])
    ensures InputOf(AnthropicEvents(items, Some(u)), items[p].block.value.1) == PartialsTo(items[p + 1..], items[p].index)
  {
    hide InputOf, ItemsEvents, PartialsTo, FreshAndAddressed;
    assert OpenIds(map[]) == {};
    StartedInput(map[], {}, items, p);
    InputConcat(ItemsEvents(map[], items), [Done(u)], items[p].block.value.1);
    InputAbsent([Done(u)], items[p].block.value.1);
  }

  // ----- text -----

  function Texts(items: seq<Item>): string {
    if items == [] then "" else (if items[0].TextDelta? then items[0].text else "") + Texts(items[1..])
  }

  lemma {:induction false} ItemsText(open: map<int, Block>, items: seq<Item>)
    ensures TextOf(ItemsEvents(open, items)) == Texts(items)
    decreases |items|
  {
    if items != [] {
      var es := ItemEvents(open, items[0]);
      assert es != [] ==> es[1..] == [];
      assert TextOf(es) == if items[0].TextDelta? then items[0].text else "";
      ItemsText(TableAfter(open, items[0]), items[1..]);
      TextConcat(es, ItemsEvents(TableAfter(open, items[0]), items[1..]));
    }
  }

  /** The text-only stream carries exactly the text the provider sent, also when the provider fails later. */
  lemma {:induction false} AnthropicTextPreserved(items: seq<Item>, final: Option<Usage>)
    ensures Joined(ShowEvents(AnthropicEvents(items, final))) == Texts(items)
  {
    hide ItemsEvents, TextOf, Texts, Joined, ShowEvents, DoneOnceLast;
    var end := if final.Some? then [Done(final.value)] else [ErrorEvent, Done((0, 0))];
    AnthropicDoneOnceLast(items, final);
    WrapperKeepsText(AnthropicEvents(items, final));
    ItemsText(map[], items);
    NoText(end);
    TextConcat(ItemsEvents(map[], items), end);
  }
}
