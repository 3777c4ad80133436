/**
 * The controller's selectors: which bots a name designates (`get_bots`), which queues the
 * pipeline declares (`get_queues`), and what `queues_clear` reports.
 */
module Inventory {
  import opened Common
  import opened Strings
  import opened Config

  /** `BOT_GROUP`: selector word -> the `group` value of the bots it designates. */
  const BotGroup: map<string, string> :=
    map["collectors" := "Collector", "parsers" := "Parser", "experts" := "Expert", "outputs" := "Output"]

  /**
   * `get_bots`. No selector: every bot. A group word: the bots of that group (the group
   * word wins over a bot of the same id). A bot id: that bot. Anything else: nothing.
   */
  function GetBots(rt: Runtime, selector: Option<string>): (r: seq<string>)
    ensures StrictlySorted(r)
    ensures selector.None? ==> forall b :: b in r <==> b in rt
    ensures selector.Some? && selector.value in BotGroup ==>
      forall b :: b in r <==> b in rt && rt[b].group == Some(BotGroup[selector.value])
    ensures selector.Some? && selector.value !in BotGroup && selector.value in rt ==> r == [selector.value]
    ensures selector.Some? && selector.value !in BotGroup && selector.value !in rt ==> r == []
  {
    match selector
    case None => SortedList(rt.Keys)
    case Some(s) =>
      if s in BotGroup then SortedList(set b | b in rt && rt[b].group == Some(BotGroup[s]))
      else if s in rt then [s]
      else []
  }

  /** Whatever the selector, only configured bots are named, and each at most once. */
  lemma {:induction false} SelectedBotsAreConfigured(rt: Runtime, selector: Option<string>)
    ensures forall b :: b in GetBots(rt, selector) ==> b in GetBots(rt, None)
    ensures forall i, j :: 0 <= i < j < |GetBots(rt, selector)| ==> GetBots(rt, selector)[i] != GetBots(rt, selector)[j]
  {
    StrictlySortedDistinct(GetBots(rt, selector));
  }

  /** A bot whose id is a group word cannot be selected by its id. */
  lemma GroupWordShadowsBotId()
    ensures var rt := map["parsers" := BotConfig("intelmq.bots.experts.noop", None, Some("Expert"))];
      GetBots(rt, Some("parsers")) == [] && GetBots(rt, Some("experts")) == ["parsers"]
  {
    var rt := map["parsers" := BotConfig("intelmq.bots.experts.noop", None, Some("Expert"))];
    assert "parsers" !in GetBots(rt, Some("parsers"));
    assert "parsers" in GetBots(rt, Some("experts"));
    assert |GetBots(rt, Some("experts"))| == 1 by {
      assert (set b | b in rt && rt[b].group == Some(BotGroup["experts"])) == {"parsers"};
    }
  }

  /** `QUEUE_TYPE`. */
  datatype QueueKind = SourceQueues | DestinationQueues | InternalQueues | AllQueues

  function KindOf(word: string): (r: Option<QueueKind>)
    ensures r.Some? <==> word in {"source", "destination", "internal", "all"}
    ensures r == Some(InternalQueues) <==> word == "internal"
  {
    if word == "source" then Some(SourceQueues)
    else if word == "destination" then Some(DestinationQueues)
    else if word == "internal" then Some(InternalQueues)
    else if word == "all" then Some(AllQueues)
    else None
  }

  /** Each queue-type word names its own kind: the words differ in their first letters. */
  lemma KindWords()
    ensures KindOf("source") == Some(SourceQueues)
    ensures KindOf("internal") == Some(InternalQueues)
  {
    assert "internal"[0] != "source"[0] && "internal"[0] != "destination"[0];
  }

  /** One pipeline entry's contribution to `get_queues`. */
  function EntryQueues(e: PipeEntry, kind: QueueKind, includeInternal: bool): (r: set<string>)
    ensures forall q :: q in r <==>
      || (e.source == Some(q) && kind in {SourceQueues, AllQueues})
      || (e.source.Some? && includeInternal && q == e.source.value + "-internal")
      || (e.destinations.Some? && kind in {DestinationQueues, AllQueues} && q in FlattenQueues(e.destinations.value))
  {
    (if e.source.Some? && kind in {SourceQueues, AllQueues} then {e.source.value} else {})
    + (if e.source.Some? && includeInternal then {e.source.value + "-internal"} else {})
    + (if e.destinations.Some? && kind in {DestinationQueues, AllQueues} then FlattenQueues(e.destinations.value) else {})
  }

  /** The set `get_queues` collects over all entries of the pipeline. */
  function QueueSet(p: Pipeline, kind: QueueKind, includeInternal: bool): (r: set<string>)
    ensures forall q :: q in r <==> exists b :: b in p && q in EntryQueues(p[b], kind, includeInternal)
  {
    set b, q | b in p && q in EntryQueues(p[b], kind, includeInternal) :: q
  }

  /**
   * `get_queues`. A queue type lists that kind ("internal" turns on the internal queues);
   * a queue name, checked against every queue including the internal ones, is listed alone.
   */
  function SelectQueues(p: Pipeline, selector: Option<string>, includeInternal: bool): (r: seq<string>)
    ensures StrictlySorted(r)
    ensures selector.None? ==> forall q :: q in r <==> q in QueueSet(p, AllQueues, includeInternal)
    ensures selector.Some? && KindOf(selector.value).Some? ==>
      forall q :: q in r <==> q in QueueSet(p, KindOf(selector.value).value,
                                           includeInternal || selector.value == "internal")
    ensures selector.Some? && KindOf(selector.value).None? ==>
      r == (if selector.value in QueueSet(p, AllQueues, true) then [selector.value] else [])
  {
    match selector
    case None => SortedList(QueueSet(p, AllQueues, includeInternal))
    case Some(s) =>
      match KindOf(s)
      case Some(kind) => SortedList(QueueSet(p, kind, includeInternal || s == "internal"))
      case None => if s in SortedList(QueueSet(p, AllQueues, true)) then [s] else []
  }

  /** The internal queues of a pipeline: one "<source queue>-internal" per declared source queue. */
  lemma {:induction false} InternalQueueSet(p: Pipeline)
    ensures forall q :: q in QueueSet(p, InternalQueues, true) <==>
      exists b :: b in p && p[b].source.Some? && q == p[b].source.value + "-internal"
  {
    forall q ensures q in QueueSet(p, InternalQueues, true) <==>
      exists b :: b in p && p[b].source.Some? && q == p[b].source.value + "-internal" {
      if exists b :: b in p && p[b].source.Some? && q == p[b].source.value + "-internal" {
        var b :| b in p && p[b].source.Some? && q == p[b].source.value + "-internal";
        assert q in EntryQueues(p[b], InternalQueues, true);
      }
    }
  }

  /** The source queues of a pipeline, without the internal ones. */
  lemma {:induction false} SourceQueueSet(p: Pipeline)
    ensures forall q :: q in QueueSet(p, SourceQueues, false) <==> exists b :: b in p && p[b].source == Some(q)
  {
    forall q ensures q in QueueSet(p, SourceQueues, false) <==> exists b :: b in p && p[b].source == Some(q) {
      if exists b :: b in p && p[b].source == Some(q) {
        var b :| b in p && p[b].source == Some(q);
        assert q in EntryQueues(p[b], SourceQueues, false);
      }
    }
  }

  /** The "internal" type lists exactly one "<source queue>-internal" per declared source queue. */
  lemma InternalTypeListsInternalQueues(p: Pipeline, includeInternal: bool)
    ensures forall q :: q in SelectQueues(p, Some("internal"), includeInternal) <==>
      exists b :: b in p && p[b].source.Some? && q == p[b].source.value + "-internal"
  {
    KindWords();
    InternalQueueSet(p);
  }

  /** Without the internal queues, the "source" type lists exactly the declared source queues. */
  lemma SourceTypeListsSourceQueues(p: Pipeline)
    ensures forall q :: q in SelectQueues(p, Some("source"), false) <==> exists b :: b in p && p[b].source == Some(q)
  {
    KindWords();
    SourceQueueSet(p);
  }

  /** Every type lists a part of "all", and a name only selects a queue "all" lists. */
  lemma {:induction false} TypesWithinAll(p: Pipeline, word: string, includeInternal: bool)
    requires KindOf(word).Some?
    ensures forall q :: q in SelectQueues(p, Some(word), includeInternal) ==> q in SelectQueues(p, None, true)
  {
    forall q | q in SelectQueues(p, Some(word), includeInternal) ensures q in SelectQueues(p, None, true) {
      var b :| b in p && q in EntryQueues(p[b], KindOf(word).value, includeInternal || word == "internal");
      assert q in EntryQueues(p[b], AllQueues, true);
    }
  }

  /** With the internal queues included, a name that `get_queues` lists selects just itself. */
  lemma {:induction false} ListedNameSelectsItself(p: Pipeline, q: string)
    requires q in SelectQueues(p, None, true) && KindOf(q).None?
    ensures SelectQueues(p, Some(q), false) == [q]
  {
  }

  /** `queues_clear` as written: the first unknown queue name, checked before anything is cleared. */
  function FirstUnknown(queues: seq<string>, known: seq<string>): (r: Option<string>)
    ensures r.None? <==> forall q :: q in queues ==> q in known
    ensures r.Some? ==> r.value in queues && r.value !in known
    ensures r.Some? ==> exists i :: 0 <= i < |queues| && queues[i] == r.value && forall j :: 0 <= j < i ==> queues[j] in known
  {
    if |queues| == 0 then None
    else if queues[0] !in known then Some(queues[0])
    else
      var r := FirstUnknown(queues[1..], known);
      if r.Some? then
        var i :| 0 <= i < |queues[1..]| && queues[1..][i] == r.value && forall j :: 0 <= j < i ==> queues[1..][j] in known;
        assert queues[i + 1] == r.value;
        r
      else r
  }

  /** The queues that are reported cleared: those the broker did not fail on, in the order asked. */
  function ClearedQueues(queues: seq<string>, failing: set<string>): (r: seq<string>)
    ensures forall q :: q in r <==> q in queues && q !in failing
    ensures |r| <= |queues|
  {
    if |queues| == 0 then []
    else (if queues[0] in failing then [] else [queues[0]]) + ClearedQueues(queues[1..], failing)
  }

  lemma {:induction false} ClearedQueuesAppend(queues: seq<string>, q: string, failing: set<string>)
    ensures ClearedQueues(queues + [q], failing) == ClearedQueues(queues, failing) + (if q in failing then [] else [q])
    decreases |queues|
  {
    if |queues| > 0 {
      var head := if queues[0] in failing then [] else [queues[0]];
      var last := if q in failing then [] else [q];
      assert (queues + [q])[0] == queues[0];
      assert (queues + [q])[1..] == queues[1..] + [q];
      var rest := ClearedQueues(queues[1..], failing);
      assert ClearedQueues(queues, failing) == head + rest;
      assert ClearedQueues(queues + [q], failing) == head + ClearedQueues(queues[1..] + [q], failing);
      ClearedQueuesAppend(queues[1..], q, failing);
      assert head + (rest + last) == (head + rest) + last;
    }
  }

  /** `queues_clear`: every name must be a known queue; the reply lists the queues actually cleared. */
  function QueuesClear(p: Pipeline, queues: Option<seq<string>>, failing: set<string>): (r: Result<seq<string>>)
    ensures queues.None? ==> r.Ok? && forall q :: q in r.value <==> q in QueueSet(p, AllQueues, true) && q !in failing
    ensures queues.Some? ==> (r.Err? <==> exists q :: q in queues.value && q !in QueueSet(p, AllQueues, true))
    ensures queues.Some? && r.Err? ==> r.error.UnknownQueue? && r.error.name in queues.value
    ensures queues.Some? && r.Ok? ==> forall q :: q in r.value <==> q in queues.value && q !in failing
  {
    var all := SelectQueues(p, None, true);
    match queues
    case None => Ok(ClearedQueues(all, failing))
    case Some(qs) =>
      match FirstUnknown(qs, all)
      case Some(q) => Err(UnknownQueue(q))
      case None => Ok(ClearedQueues(qs, failing))
  }
}
