/** The authoring format of a workflow and its validation. */
module Dto {
  import opened Options
  import opened Ir

  datatype FlagOp = Equal | NotEqual | Less | Greater

  datatype FlagValue = BoolValue(b: bool) | IntValue(i: int)

  datatype FlagCondition = FlagCondition(flag: string, op: FlagOp, value: FlagValue)

  datatype ErrorEdge = ErrorEdge(code: string, retries: nat)

  datatype Link = Link(source: string, target: string, condition: Option<FlagCondition>, isDefault: bool,
    onError: Option<ErrorEdge>)

  /** The optional fields of a timer. */
  datatype Timer = Timer(duration: Option<nat>, deadline: Option<nat>, cycle: Option<nat>, cycleMax: Option<nat>)

  /** Arms of a race are kept by name; types and roles of data objects by number. */
  datatype Item =
    | StartItem(id: string)
    | EndItem(id: string, terminate: bool)
    | ServiceItem(id: string, taskType: string, bpmnId: Option<string>)
    | ExclusiveItem(id: string)
    | ParallelItem(id: string, direction: Direction, join: Option<string>)
    | InclusiveItem(id: string, direction: Direction, join: Option<string>)
    | TimerItem(id: string, timer: Timer)
    | MessageItem(id: string, name: string, corrKey: string)
    | HumanItem(id: string, taskKind: string, corrKey: string)
    | RaceItem(id: string, arms: seq<string>)
    | BoundaryTimerItem(id: string, host: string, timer: Timer, interrupting: bool)
    | BoundaryErrorItem(id: string, host: string, code: Option<string>)
    | MultiItem(id: string, taskType: string, bpmnId: Option<string>, collection: string, declaredMax: nat)
    | DataItem(id: string, name: string, typeDecl: nat, role: nat)

  datatype Workflow = Workflow(id: string, items: seq<Item>, links: seq<Link>)

  datatype Rule = V1 | V2 | V3 | V4 | V5 | V6 | V7 | V8 | V9 | V11 | V12 | V13 | V14 | V15 | V16

  // ---------------------------------------------------------------- reading a workflow

  /** The first item with this id. */
  function Lookup(items: seq<Item>, id: string): (r: Option<Item>)
    ensures r.Some? ==> r.value in items && r.value.id == id
    ensures r.None? ==> forall i :: 0 <= i < |items| ==> items[i].id != id
  {
    if items == [] then None
    else
      var r := Lookup(items[..|items| - 1], id);
      if r.Some? then r
      else if items[|items| - 1].id == id then Some(items[|items| - 1]) else None
  }

  /** The links that leave `id`, in order. */
  function Outgoing(links: seq<Link>, id: string): seq<Link> {
    if links == [] then []
    else Outgoing(links[..|links| - 1], id) + (if links[|links| - 1].source == id then [links[|links| - 1]] else [])
  }

  predicate IsDefault(e: Link) {
    e.isDefault || (e.condition.None? && e.onError.None?)
  }

  function Defaults(links: seq<Link>): nat {
    if links == [] then 0 else Defaults(links[..|links| - 1]) + (if IsDefault(links[|links| - 1]) then 1 else 0)
  }

  function Starts(items: seq<Item>): nat {
    if items == [] then 0 else Starts(items[..|items| - 1]) + (if items[|items| - 1].StartItem? then 1 else 0)
  }

  function Ends(items: seq<Item>): nat {
    if items == [] then 0 else Ends(items[..|items| - 1]) + (if items[|items| - 1].EndItem? then 1 else 0)
  }

  /** Where the first dot stands, if there is one. */
  function Dot(s: string): (k: nat)
    ensures k <= |s| && (k < |s| <==> '.' in s)
  {
    if s == "" then 0 else if s[0] == '.' then 0 else 1 + Dot(s[1..])
  }

  /** The part of a reference before its first dot. */
  function Base(s: string): (b: string)
    ensures '.' !in s ==> b == s
  {
    s[..Dot(s)]
  }

  /** The rule that a reference breaks. */
  function RefFault(items: seq<Item>, s: string): Option<Rule> {
    if '.' !in s then (if Lookup(items, s).None? then Some(V3) else None)
    else match Lookup(items, Base(s))
      case None => Some(V3)
      case Some(item) => if item.RaceItem? && s[Dot(s) + 1..] in item.arms then None else Some(V4)
  }

  // ---------------------------------------------------------------- the rules

  ghost predicate ItemBreaks(w: Workflow, r: Rule, item: Item) {
    match r
    case V2 => '.' in item.id
    case V7 => item.ExclusiveItem? && |Outgoing(w.links, item.id)| > 1 && Defaults(Outgoing(w.links, item.id)) != 1
    case V8 =>
      && item.ParallelItem? && item.direction.Diverging? && item.join.Some?
      && var j := Lookup(w.items, item.join.value); !(j.Some? && j.value.ParallelItem? && j.value.direction.Converging?)
    case V9 =>
      && item.InclusiveItem? && item.direction.Diverging? && item.join.Some?
      && var j := Lookup(w.items, item.join.value);
         !(j.Some? && j.value.InclusiveItem? && j.value.direction.Converging?)
    case V11 => item.BoundaryTimerItem? && var h := Lookup(w.items, item.host); !(h.Some? && h.value.ServiceItem?)
    case V12 => item.BoundaryTimerItem? && |Outgoing(w.links, item.id)| != 1
    case _ => false
  }

  ghost predicate LinkBreaks(w: Workflow, r: Rule, e: Link) {
    match r
    case V3 => RefFault(w.items, e.source) == Some(V3) || RefFault(w.items, e.target) == Some(V3)
    case V4 => RefFault(w.items, e.source) == Some(V4) || RefFault(w.items, e.target) == Some(V4)
    case V13 => e.condition.Some? && e.onError.Some?
    case V14 => e.condition.Some? && e.isDefault
    case V15 => e.onError.Some? && var h := Lookup(w.items, Base(e.source)); !(h.Some? && h.value.ServiceItem?)
    case V16 => OnData(w.items, e.source) || OnData(w.items, e.target)
    case _ => false
  }

  predicate OnData(items: seq<Item>, s: string) {
    Lookup(items, Base(s)).Some? && Lookup(items, Base(s)).value.DataItem?
  }

  /** Two items have one id. */
  ghost predicate Repeats(items: seq<Item>) {
    exists i, j :: 0 <= i < j < |items| && items[i].id == items[j].id
  }

  ghost predicate Broken(w: Workflow, r: Rule) {
    match r
    case V1 => Repeats(w.items)
    case V5 => Starts(w.items) != 1
    case V6 => Ends(w.items) == 0
    case _ =>
      || (exists i :: 0 <= i < |w.items| && ItemBreaks(w, r, w.items[i]))
      || (exists i :: 0 <= i < |w.links| && LinkBreaks(w, r, w.links[i]))
  }

  ghost predicate Valid(w: Workflow) {
    forall r {:trigger Broken(w, r)} :: !Broken(w, r)
  }

  // ---------------------------------------------------------------- as it is checked

  /** Collects the items by id, the first of each, and reports repeated ids. */
  method MapItems(items: seq<Item>) returns (byId: map<string, Item>, repeated: bool)
    ensures forall id :: (if id in byId then Some(byId[id]) else None) == Lookup(items, id)
    ensures repeated <==> Repeats(items)
  {
    byId, repeated := map[], false;
    for i := 0 to |items|
      invariant forall id {:trigger Lookup(items[..i], id)} ::
        (if id in byId then Some(byId[id]) else None) == Lookup(items[..i], id)
      invariant repeated <==> Repeats(items[..i])
    {
      var id := items[i].id;
      assert items[..i + 1][..i] == items[..i];
      RepeatsNext(items, i);
      assert id in byId <==> Lookup(items[..i], id).Some?;
      if id in byId { repeated := true; } else { byId := byId[id := items[i]]; }
    }
    assert items[..|items|] == items;
  }

  lemma RepeatsNext(items: seq<Item>, i: nat)
    requires i < |items|
    ensures Repeats(items[..i + 1]) <==> Repeats(items[..i]) || Lookup(items[..i], items[i].id).Some?
  {
    var a, b := items[..i], items[..i + 1];
    if Repeats(a) {
      var x, y :| 0 <= x < y < |a| && a[x].id == a[y].id;
      assert b[x].id == b[y].id;
    }
    var r := Lookup(a, items[i].id);
    if r.Some? {
      var x :| 0 <= x < |a| && a[x] == r.value;
      assert b[x].id == b[i].id;
    }
    if Repeats(b) {
      var x, y :| 0 <= x < y < |b| && b[x].id == b[y].id;
      if y < i { assert a[x].id == a[y].id; } else { assert a[x].id == items[i].id; }
    }
  }

  /** Collects the links by where they start. */
  method MapLinks(links: seq<Link>) returns (out: map<string, seq<Link>>)
    ensures forall id :: (if id in out then out[id] else []) == Outgoing(links, id)
  {
    out := map[];
    for i := 0 to |links|
      invariant forall id {:trigger Outgoing(links[..i], id)} ::
        (if id in out then out[id] else []) == Outgoing(links[..i], id)
    {
      var e := links[i];
      assert links[..i + 1][..i] == links[..i];
      assert (if e.source in out then out[e.source] else []) == Outgoing(links[..i], e.source);
      out := out[e.source := (if e.source in out then out[e.source] else []) + [e]];
    }
    assert links[..|links|] == links;
  }

  function Found(byId: map<string, Item>, id: string): Option<Item> {
    if id in byId then Some(byId[id]) else None
  }

  function From(out: map<string, seq<Link>>, id: string): seq<Link> {
    if id in out then out[id] else []
  }

  /** The rules that one item breaks. */
  method CheckItem(item: Item, byId: map<string, Item>, out: map<string, seq<Link>>, ghost w: Workflow)
                   returns (broken: set<Rule>)
    requires forall id :: Found(byId, id) == Lookup(w.items, id)
    requires forall id :: From(out, id) == Outgoing(w.links, id)
    ensures forall r :: r in broken <==> ItemBreaks(w, r, item)
  {
    broken := {};
    if '.' in item.id { broken := broken + {V2}; }
    match item
    case ExclusiveItem(id) =>
      var links := From(out, id);
      if |links| > 1 && Defaults(links) != 1 { broken := broken + {V7}; }
    case ParallelItem(_, Diverging, Some(id)) =>
      var join := Found(byId, id);
      if !(join.Some? && join.value.ParallelItem? && join.value.direction.Converging?) { broken := broken + {V8}; }
    case InclusiveItem(_, Diverging, Some(id)) =>
      var join := Found(byId, id);
      if !(join.Some? && join.value.InclusiveItem? && join.value.direction.Converging?) { broken := broken + {V9}; }
    case BoundaryTimerItem(id, host, _, _) =>
      var task := Found(byId, host);
      if !(task.Some? && task.value.ServiceItem?) { broken := broken + {V11}; }
      if |From(out, id)| != 1 { broken := broken + {V12}; }
    case _ =>
  }

  method CheckRef(s: string, byId: map<string, Item>, ghost items: seq<Item>) returns (fault: Option<Rule>)
    requires forall id :: Found(byId, id) == Lookup(items, id)
    ensures fault == RefFault(items, s)
  {
    if '.' !in s { return if Found(byId, s).None? then Some(V3) else None; }
    var race := Found(byId, Base(s));
    if race.None? { return Some(V3); }
    return if race.value.RaceItem? && s[Dot(s) + 1..] in race.value.arms then None else Some(V4);
  }

  method CheckRefs(e: Link, byId: map<string, Item>, ghost w: Workflow) returns (broken: set<Rule>)
    requires forall id :: Found(byId, id) == Lookup(w.items, id)
    ensures forall r :: r in broken <==> (r == V3 || r == V4) && LinkBreaks(w, r, e)
  {
    broken := {};
    var a := CheckRef(e.source, byId, w.items);
    var b := CheckRef(e.target, byId, w.items);
    if a == Some(V3) || b == Some(V3) { broken := broken + {V3}; }
    if a == Some(V4) || b == Some(V4) { broken := broken + {V4}; }
  }

  method CheckMarks(e: Link, ghost w: Workflow) returns (broken: set<Rule>)
    ensures forall r :: r in broken <==> (r == V13 || r == V14) && LinkBreaks(w, r, e)
  {
    broken := {};
    if e.condition.Some? && e.onError.Some? { broken := broken + {V13}; }
    if e.condition.Some? && e.isDefault { broken := broken + {V14}; }
  }

  method CheckEnds(e: Link, byId: map<string, Item>, ghost w: Workflow) returns (broken: set<Rule>)
    requires forall id :: Found(byId, id) == Lookup(w.items, id)
    ensures forall r :: r in broken <==> (r == V15 || r == V16) && LinkBreaks(w, r, e)
  {
    broken := {};
    var source, target := Found(byId, Base(e.source)), Found(byId, Base(e.target));
    if e.onError.Some? && !(source.Some? && source.value.ServiceItem?) { broken := broken + {V15}; }
    if (source.Some? && source.value.DataItem?) ||
      (target.Some? && target.value.DataItem?) { broken := broken + {V16}; }
  }

  /** The rules that one link breaks. */
  method CheckLink(e: Link, byId: map<string, Item>, ghost w: Workflow) returns (broken: set<Rule>)
    requires forall id :: Found(byId, id) == Lookup(w.items, id)
    ensures forall r :: r in broken <==> LinkBreaks(w, r, e)
  {
    var a := CheckRefs(e, byId, w);
    var b := CheckMarks(e, w);
    var c := CheckEnds(e, byId, w);
    broken := a + b + c;
    OnlyLinkRules(w, e);
  }

  lemma OnlyLinkRules(w: Workflow, e: Link)
    ensures forall r :: LinkBreaks(w, r, e) ==> r == V3 || r == V4 || r == V13 || r == V14 || r == V15 || r == V16
  {
  }

  ghost predicate SomeItem(w: Workflow, r: Rule, k: nat) {
    exists i :: 0 <= i < k <= |w.items| && ItemBreaks(w, r, w.items[i])
  }

  ghost predicate SomeLink(w: Workflow, r: Rule, k: nat) {
    exists i :: 0 <= i < k <= |w.links| && LinkBreaks(w, r, w.links[i])
  }

  method CheckItems(w: Workflow, byId: map<string, Item>, out: map<string, seq<Link>>) returns (broken: set<Rule>)
    requires forall id :: Found(byId, id) == Lookup(w.items, id)
    requires forall id :: From(out, id) == Outgoing(w.links, id)
    ensures forall r :: r in broken <==> SomeItem(w, r, |w.items|)
  {
    broken := {};
    for k := 0 to |w.items|
      invariant forall r :: r in broken <==> SomeItem(w, r, k)
    {
      var more := CheckItem(w.items[k], byId, out, w);
      ghost var before, next := broken, k + 1;
      broken := broken + more;
      forall r ensures r in broken <==> SomeItem(w, r, next) {
        assert r in before <==> SomeItem(w, r, k);
        if SomeItem(w, r, k) { var i :| 0 <= i < k && ItemBreaks(w, r, w.items[i]); }
      }
    }
  }

  method CheckLinks(w: Workflow, byId: map<string, Item>) returns (broken: set<Rule>)
    requires forall id :: Found(byId, id) == Lookup(w.items, id)
    ensures forall r :: r in broken <==> SomeLink(w, r, |w.links|)
  {
    broken := {};
    for k := 0 to |w.links|
      invariant forall r :: r in broken <==> SomeLink(w, r, k)
    {
      var more := CheckLink(w.links[k], byId, w);
      ghost var before, next := broken, k + 1;
      broken := broken + more;
      forall r ensures r in broken <==> SomeLink(w, r, next) {
        assert r in before <==> SomeLink(w, r, k);
        if SomeLink(w, r, k) { var i :| 0 <= i < k && LinkBreaks(w, r, w.links[i]); }
      }
    }
  }

  /** The rules that a workflow breaks. */
  method Validate(w: Workflow) returns (broken: set<Rule>)
    ensures forall r :: r in broken <==> Broken(w, r)
    ensures broken == {} <==> Valid(w)
  {
    var byId, repeated := MapItems(w.items);
    var out := MapLinks(w.links);
    var a := CheckItems(w, byId, out);
    var b := CheckLinks(w, byId);
    broken := a + b;
    if repeated { broken := broken + {V1}; }
    if Starts(w.items) != 1 { broken := broken + {V5}; }
    if Ends(w.items) == 0 { broken := broken + {V6}; }
    forall r ensures r in broken <==> Broken(w, r) {
      assert r in a <==> SomeItem(w, r, |w.items|);
      assert r in b <==> SomeLink(w, r, |w.links|);
      assert r == V1 || r == V5 || r == V6 ==> !SomeItem(w, r, |w.items|) && !SomeLink(w, r, |w.links|);
    }
    assert broken == {} <==> forall r :: r !in broken;
  }
}
