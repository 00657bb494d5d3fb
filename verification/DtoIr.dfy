/** From the authoring format to the compiler's graph and back: what survives the round trip. */
module DtoIr {
  import opened Options
  import opened Ir
  import opened Dto

  /** A condition on a flow, its flag by name. */
  datatype Test = Test(flag: string, op: ConditionOp, literal: Literal)

  datatype Element =
    | StartElement(id: string)
    | EndElement(id: string, terminate: bool)
    | ServiceElement(id: string, name: string, taskType: string)
    | XorElement(id: string, name: string)
    | AndElement(id: string, name: string, direction: Direction)
    | InclusiveElement(id: string, name: string, direction: Direction)
    | TimerElement(id: string, spec: TimerSpec)
    | MessageElement(id: string, name: string, corrKey: string)
    | HumanElement(id: string, name: string, taskKind: string, corrKey: string)
    | BoundaryTimerElement(id: string, host: string, spec: TimerSpec, interrupting: bool, budget: Option<nat>)
    | BoundaryErrorElement(id: string, host: string, code: Option<string>, budget: Option<nat>)
    | MultiElement(id: string, name: string, taskType: string, collection: string, declaredMax: nat)
    | DataElement(id: string, name: string, typeDecl: nat, role: nat)
    | FfiElement(id: string)
    | SendElement(id: string)

  /** A flow between two elements; flows are numbered in the order in which they were made. */
  datatype Arrow = Arrow(source: nat, target: nat, ordinal: nat, test: Option<Test>)

  datatype Model = Model(elements: seq<Element>, arrows: seq<Arrow>)

  // ---------------------------------------------------------------- one item, one condition

  function SpecOf(t: Timer): Option<TimerSpec> {
    match (t.duration, t.deadline, t.cycle)
    case (Some(ms), None, None) => Some(Duration(ms))
    case (None, Some(ms), None) => Some(Date(ms))
    case (None, None, Some(ms)) => Some(Cycle(ms, t.cycleMax.Or(1)))
    case _ => None
  }

  function FieldsOf(spec: TimerSpec): Timer {
    match spec
    case Duration(ms) => Timer(Some(ms), None, None, None)
    case Date(ms) => Timer(None, Some(ms), None, None)
    case Cycle(ms, fires) => Timer(None, None, Some(ms), Some(fires))
  }

  function TestOf(c: FlagCondition): Test {
    Test(c.flag,
         match c.op case Equal => Eq case NotEqual => Neq case Less => Lt case Greater => Gt,
         match c.value case BoolValue(b) => BoolLiteral(b) case IntValue(i) => IntLiteral(i))
  }

  function FlagOf(t: Test): FlagCondition {
    FlagCondition(t.flag,
                  match t.op case Eq => Equal case Neq => NotEqual case Lt => Less case Gt => Greater,
                  match t.literal case BoolLiteral(b) => BoolValue(b) case IntLiteral(i) => IntValue(i))
  }

  /** The element of an item; a race has none, nor has a timer without exactly one time. */
  function ElementOf(item: Item): Option<Element> {
    match item
    case StartItem(id) => Some(StartElement(id))
    case EndItem(id, terminate) => Some(EndElement(id, terminate))
    case ServiceItem(id, taskType, bpmnId) => Some(ServiceElement(id, bpmnId.Or(id), taskType))
    case ExclusiveItem(id) => Some(XorElement(id, ""))
    case ParallelItem(id, direction, _) => Some(AndElement(id, "", direction))
    case InclusiveItem(id, direction, _) => Some(InclusiveElement(id, "", direction))
    case TimerItem(id, timer) => if SpecOf(timer).None? then None else Some(TimerElement(id, SpecOf(timer).value))
    case MessageItem(id, name, corrKey) => Some(MessageElement(id, name, corrKey))
    case HumanItem(id, taskKind, corrKey) => Some(HumanElement(id, "human." + taskKind, taskKind, corrKey))
    case RaceItem(_, _) => None
    case BoundaryTimerItem(id, host, timer, interrupting) =>
      if SpecOf(timer).None? then None
        else Some(BoundaryTimerElement(id, host, SpecOf(timer).value, interrupting, None))
    case BoundaryErrorItem(id, host, code) => Some(BoundaryErrorElement(id, host, code, None))
    case MultiItem(id, taskType, bpmnId, collection, declaredMax) =>
      Some(MultiElement(id, bpmnId.Or(id), taskType, collection, declaredMax))
    case DataItem(id, name, typeDecl, role) => Some(DataElement(id, name, typeDecl, role))
  }

  function NameIfOther(name: string, id: string): Option<string> {
    if name != id then Some(name) else None
  }

  /** The item of an element; two kinds of tasks have none. */
  function ItemOf(element: Element): (r: Option<Item>)
    ensures r.Some? ==> r.value.id == element.id
  {
    match element
    case StartElement(id) => Some(StartItem(id))
    case EndElement(id, terminate) => Some(EndItem(id, terminate))
    case ServiceElement(id, name, taskType) => Some(ServiceItem(id, taskType, NameIfOther(name, id)))
    case XorElement(id, _) => Some(ExclusiveItem(id))
    case AndElement(id, _, direction) => Some(ParallelItem(id, direction, None))
    case InclusiveElement(id, _, direction) => Some(InclusiveItem(id, direction, None))
    case TimerElement(id, spec) => Some(TimerItem(id, FieldsOf(spec)))
    case MessageElement(id, name, corrKey) => Some(MessageItem(id, name, corrKey))
    case HumanElement(id, _, taskKind, corrKey) => Some(HumanItem(id, taskKind, corrKey))
    case BoundaryTimerElement(id, host, spec, interrupting, _) =>
      Some(BoundaryTimerItem(id, host, FieldsOf(spec), interrupting))
    case BoundaryErrorElement(id, host, code, _) => Some(BoundaryErrorItem(id, host, code))
    case MultiElement(id, name, taskType, collection, declaredMax) =>
      Some(MultiItem(id, taskType, NameIfOther(name, id), collection, declaredMax))
    case DataElement(id, name, typeDecl, role) => Some(DataItem(id, name, typeDecl, role))
    case FfiElement(_) => None
    case SendElement(_) => None
  }

  /** What a conversion and its way back keep of an item. */
  ghost predicate Alike(a: Item, b: Item) {
    && a.id == b.id && (a.StartItem? <==> b.StartItem?) && (a.EndItem? <==> b.EndItem?) && (a.ServiceItem? <==>
       b.ServiceItem?)
    && (a.ExclusiveItem? <==> b.ExclusiveItem?) && (a.DataItem? <==> b.DataItem?)
    && (a.BoundaryTimerItem? <==> b.BoundaryTimerItem?) && (a.BoundaryTimerItem? && b.BoundaryTimerItem? ==>
       a.host == b.host)
    && (b.ParallelItem? ==> b.join.None?) && (b.InclusiveItem? ==> b.join.None?)
  }

  lemma ItemBack(item: Item)
    requires ElementOf(item).Some?
    ensures var e := ElementOf(item).value;
      && e.id == item.id && ItemOf(e).Some? && Alike(item, ItemOf(e).value) && ElementOf(ItemOf(e).value) == Some(e)
      && (e.XorElement? <==> item.ExclusiveItem?)
  {
  }

  lemma TestBack(t: Test)
    ensures TestOf(FlagOf(t)) == t
  {
  }

  // ---------------------------------------------------------------- to the graph

  /** The id of the boundary event made for an error link. */
  function SynthId(e: Link): string
    requires e.onError.Some?
  {
    "err_" + e.source + "_" + e.onError.value.code
  }

  function Synth(e: Link): Element
    requires e.onError.Some?
  {
    BoundaryErrorElement(SynthId(e), e.source, Some(e.onError.value.code), None)
  }

  /** The links without, or with, an error code. */
  function Plain(links: seq<Link>): (r: seq<Link>)
    ensures forall i :: 0 <= i < |r| ==> r[i].onError.None?
  {
    if links == [] then []
    else Plain(links[..|links| - 1]) + (if links[|links| - 1].onError.None? then [links[|links| - 1]] else [])
  }

  function Faults(links: seq<Link>): (r: seq<Link>)
    ensures forall i :: 0 <= i < |r| ==> r[i].onError.Some?
  {
    if links == [] then []
    else Faults(links[..|links| - 1]) + (if links[|links| - 1].onError.Some? then [links[|links| - 1]] else [])
  }

  lemma {:induction false} PlainIn(links: seq<Link>, i: nat)
    requires i < |Plain(links)|
    ensures Plain(links)[i] in links
  {
    var init, last := links[..|links| - 1], links[|links| - 1];
    if i < |Plain(init)| { PlainIn(init, i); }
    assert links == init + [last];
  }

  lemma {:induction false} FaultsIn(links: seq<Link>, i: nat)
    requires i < |Faults(links)|
    ensures Faults(links)[i] in links
  {
    var init, last := links[..|links| - 1], links[|links| - 1];
    if i < |Faults(init)| { FaultsIn(init, i); }
    assert links == init + [last];
  }

  function ItemIds(items: seq<Item>): (r: seq<string>)
    ensures |r| == |items| && forall i :: 0 <= i < |r| ==> r[i] == items[i].id
  {
    seq(|items|, i requires 0 <= i < |items| => items[i].id)
  }

  function SynthIds(faults: seq<Link>): (r: seq<string>)
    requires forall i :: 0 <= i < |faults| ==> faults[i].onError.Some?
    ensures |r| == |faults| && forall i :: 0 <= i < |r| ==> r[i] == SynthId(faults[i])
  {
    seq(|faults|, i requires 0 <= i < |faults| => SynthId(faults[i]))
  }

  /** The ids of all elements, in order. */
  function Ids(w: Workflow): (ids: seq<string>)
    ensures |ids| == |w.items| + |Faults(w.links)|
  {
    ItemIds(w.items) + SynthIds(Faults(w.links))
  }

  /** The last place of an id: later entries of the index replace earlier ones. */
  function Last(ids: seq<string>, id: string): (r: Option<nat>)
    ensures r.Some? ==> r.value < |ids| && ids[r.value] == id
    ensures r.None? ==> id !in ids
  {
    if ids == [] then None
    else if ids[|ids| - 1] == id then Some(|ids| - 1) else Last(ids[..|ids| - 1], id)
  }

  function SourceId(e: Link): string {
    if e.onError.Some? then SynthId(e) else e.source
  }

  function TestOn(e: Link): Option<Test> {
    if e.onError.Some? || e.isDefault || e.condition.None? then None else Some(TestOf(e.condition.value))
  }

  predicate Resolved(ids: seq<string>, e: Link) {
    Last(ids, SourceId(e)).Some? && Last(ids, e.target).Some?
  }

  function ArrowOf(ids: seq<string>, e: Link, k: nat): Arrow
    requires Resolved(ids, e)
  {
    Arrow(Last(ids, SourceId(e)).value, Last(ids, e.target).value, k, TestOn(e))
  }

  /** Ordinary links first, then those of the boundary events made. */
  function Order(w: Workflow): seq<Link> {
    Plain(w.links) + Faults(w.links)
  }

  ghost predicate Convertible(w: Workflow) {
    && Valid(w) && (forall i :: 0 <= i < |w.items| ==> ElementOf(w.items[i]).Some?)
    && forall k :: 0 <= k < |Order(w)| ==> Resolved(Ids(w), Order(w)[k])
  }

  function Converted(items: seq<Item>): (r: seq<Element>)
    requires forall i :: 0 <= i < |items| ==> ElementOf(items[i]).Some?
    ensures |r| == |items| && forall i :: 0 <= i < |r| ==> r[i] == ElementOf(items[i]).value
  {
    seq(|items|, i requires 0 <= i < |items| => ElementOf(items[i]).value)
  }

  function Made(faults: seq<Link>): (r: seq<Element>)
    requires forall i :: 0 <= i < |faults| ==> faults[i].onError.Some?
    ensures |r| == |faults| && forall i :: 0 <= i < |r| ==> r[i] == Synth(faults[i])
  {
    seq(|faults|, i requires 0 <= i < |faults| => Synth(faults[i]))
  }

  function Elements(w: Workflow): (r: seq<Element>)
    requires forall i :: 0 <= i < |w.items| ==> ElementOf(w.items[i]).Some?
    ensures |r| == |Ids(w)|
  {
    Converted(w.items) + Made(Faults(w.links))
  }

  function Arrows(w: Workflow): (r: seq<Arrow>)
    requires forall k :: 0 <= k < |Order(w)| ==> Resolved(Ids(w), Order(w)[k])
    ensures |r| == |Order(w)| && forall k :: 0 <= k < |r| ==> r[k] == ArrowOf(Ids(w), Order(w)[k], k)
  {
    seq(|Order(w)|, k requires 0 <= k < |Order(w)| => ArrowOf(Ids(w), Order(w)[k], k))
  }

  ghost function ToModel(w: Workflow): Option<Model> {
    if Convertible(w) then Some(Model(Elements(w), Arrows(w))) else None
  }

  // ---------------------------------------------------------------- and back

  predicate HasTest(m: Model, n: nat) {
    exists k :: 0 <= k < |m.arrows| && m.arrows[k].source == n && m.arrows[k].test.Some?
  }

  function LinkOf(m: Model, a: Arrow): Link
    requires a.source < |m.elements| && a.target < |m.elements|
  {
    Link(m.elements[a.source].id, m.elements[a.target].id,
         if a.test.Some? then Some(FlagOf(a.test.value)) else None,
         a.test.None? && m.elements[a.source].XorElement? && HasTest(m, a.source), None)
  }

  predicate Drawable(m: Model) {
    && (forall i :: 0 <= i < |m.elements| ==> ItemOf(m.elements[i]).Some?)
    && forall k :: 0 <= k < |m.arrows| ==> m.arrows[k].source < |m.elements| && m.arrows[k].target < |m.elements|
  }

  function ToWorkflow(m: Model, id: string): (r: Option<Workflow>) {
    if !Drawable(m) then None
    else Some(Workflow(id,
      seq(|m.elements|, i requires 0 <= i < |m.elements| => ItemOf(m.elements[i]).value),
      seq(|m.arrows|, k requires 0 <= k < |m.arrows| => LinkOf(m, m.arrows[k]))))
  }

  // ---------------------------------------------------------------- the condition

  ghost predicate DistinctIds(ids: seq<string>) {
    forall i, j :: 0 <= i < j < |ids| ==> ids[i] != ids[j]
  }

  /** The ids made for boundary events are new, differ from each other and hold no dot. */
  ghost predicate Fresh(w: Workflow) {
    DistinctIds(Ids(w)) && forall i :: 0 <= i < |Faults(w.links)| ==> '.' !in SynthId(Faults(w.links)[i])
  }

  lemma {:induction false} LookupAt(items: seq<Item>, i: nat)
    requires i < |items| && forall j, k :: 0 <= j < k < |items| ==> items[j].id != items[k].id
    ensures Lookup(items, items[i].id) == Some(items[i])
  {
    var r := Lookup(items, items[i].id);
    assert items[i].id == items[i].id;
    var j :| 0 <= j < |items| && items[j] == r.value;
  }

  lemma ValidHolds(w: Workflow, r: Rule)
    requires Valid(w)
    ensures !Broken(w, r)
  {
  }

  lemma ValidItem(w: Workflow, r: Rule, i: nat)
    requires Valid(w) && r != V1 && r != V5 && r != V6 && i < |w.items|
    ensures !ItemBreaks(w, r, w.items[i])
  {
    ValidHolds(w, r);
  }

  lemma ValidLink(w: Workflow, r: Rule, e: Link)
    requires Valid(w) && r != V1 && r != V5 && r != V6 && e in w.links
    ensures !LinkBreaks(w, r, e)
  {
    ValidHolds(w, r);
    var i :| 0 <= i < |w.links| && w.links[i] == e;
  }

  // ---------------------------------------------------------------- every link finds its elements

  lemma {:induction false} IdListed(w: Workflow, id: string)
    requires Lookup(w.items, id).Some?
    ensures id in Ids(w)
  {
    var item := Lookup(w.items, id).value;
    var i :| 0 <= i < |w.items| && w.items[i] == item;
    assert Ids(w)[i] == id;
  }

  /** A valid reference without races is the id of an item. */
  lemma {:induction false} PlainRef(w: Workflow, s: string)
    requires RefFault(w.items, s).None? && forall i :: 0 <= i < |w.items| ==> !w.items[i].RaceItem?
    ensures '.' !in s && Lookup(w.items, s).Some? && s in Ids(w)
  {
    if '.' !in s { IdListed(w, s); }
  }

  lemma NoRace(w: Workflow)
    requires forall i :: 0 <= i < |w.items| ==> ElementOf(w.items[i]).Some?
    ensures forall i :: 0 <= i < |w.items| ==> !w.items[i].RaceItem?
  {
  }

  lemma LinkRefs(w: Workflow, e: Link)
    requires Valid(w) && (forall i :: 0 <= i < |w.items| ==> ElementOf(w.items[i]).Some?) && e in w.links
    ensures '.' !in e.source && '.' !in e.target && Lookup(w.items, e.source).Some? && Lookup(w.items, e.target).Some?
    ensures e.source in Ids(w) && e.target in Ids(w)
  {
    NoRace(w);
    ValidLink(w, V3, e);
    ValidLink(w, V4, e);
    PlainRef(w, e.source);
    PlainRef(w, e.target);
  }

  /** A valid workflow whose items all convert converts: no link is ever without its ends. */
  lemma AlwaysResolved(w: Workflow)
    requires Valid(w) && forall i :: 0 <= i < |w.items| ==> ElementOf(w.items[i]).Some?
    ensures Convertible(w)
  {
    forall k | 0 <= k < |Order(w)| ensures Resolved(Ids(w), Order(w)[k]) { ResolvedAt(w, k); }
  }

  lemma OrderAt(w: Workflow, k: nat)
    requires k < |Order(w)|
    ensures Order(w)[k] in w.links
    ensures k < |Plain(w.links)| ==> Order(w)[k].onError.None?
    ensures k >= |Plain(w.links)| ==> Order(w)[k] == Faults(w.links)[k - |Plain(w.links)|] && Order(w)[k].onError.Some?
  {
    if k < |Plain(w.links)| { PlainIn(w.links, k); } else { FaultsIn(w.links, k - |Plain(w.links)|); }
  }

  lemma ResolvedAt(w: Workflow, k: nat)
    requires Valid(w) && AllConvert(w) && k < |Order(w)|
    ensures Resolved(Ids(w), Order(w)[k])
  {
    OrderAt(w, k);
    LinkRefs(w, Order(w)[k]);
    if k >= |Plain(w.links)| { SynthAt(w, k - |Plain(w.links)|); }
  }

  // ---------------------------------------------------------------- what comes back

  ghost predicate ItemMirrors(w: Workflow, v: Workflow, i: nat) {
    i < |Ids(w)| == |v.items| ==>
      && v.items[i].id == Ids(w)[i]
      && if i < |w.items| then Alike(w.items[i], v.items[i]) else v.items[i].BoundaryErrorItem?
  }

  ghost predicate LinkMirrors(w: Workflow, v: Workflow, k: nat) {
    k < |Order(w)| == |v.links| ==>
      var e := Order(w)[k];
      && v.links[k].source == SourceId(e) && v.links[k].target == e.target && v.links[k].onError.None?
      && (v.links[k].condition.None? <==> TestOn(e).None?) && (v.links[k].isDefault ==> TestOn(e).None?)
  }

  /** `v` has the items of `w` and those made for its error links, and the links in order. */
  ghost predicate Mirrors(w: Workflow, v: Workflow) {
    && |v.items| == |Ids(w)| && |v.links| == |Order(w)|
    && (forall i: nat {:trigger ItemMirrors(w, v, i)} :: ItemMirrors(w, v, i))
    && (forall k: nat {:trigger LinkMirrors(w, v, k)} :: LinkMirrors(w, v, k))
  }

  ghost predicate AllConvert(w: Workflow) {
    forall i :: 0 <= i < |w.items| ==> ElementOf(w.items[i]).Some?
  }

  lemma SynthBack(e: Link)
    requires e.onError.Some?
    ensures var x := Synth(e);
      x.id == SynthId(e) && ItemOf(x).Some? && ElementOf(ItemOf(x).value) == Some(x) &&
        ItemOf(x).value.BoundaryErrorItem?
  {
  }

  lemma SynthAt(w: Workflow, i: nat)
    requires AllConvert(w) && i < |Faults(w.links)|
    ensures |w.items| + i < |Ids(w)| && Ids(w)[|w.items| + i] == SynthId(Faults(w.links)[i])
    ensures Elements(w)[|w.items| + i] == Synth(Faults(w.links)[i])
  {
  }

  /** Element `i` has its id and comes back as an item that converts to it. */
  ghost predicate Returns(w: Workflow, i: nat, e: Element)
    requires i < |Ids(w)|
  {
    && e.id == Ids(w)[i] && ItemOf(e).Some? && ElementOf(ItemOf(e).value) == Some(e)
    && if i < |w.items| then Alike(w.items[i], ItemOf(e).value) else ItemOf(e).value.BoundaryErrorItem?
  }

  lemma ItemReturns(w: Workflow, i: nat)
    requires AllConvert(w) && i < |w.items|
    ensures Elements(w)[i] == ElementOf(w.items[i]).value && Returns(w, i, ElementOf(w.items[i]).value)
  {
    ItemBack(w.items[i]);
  }

  lemma SynthReturns(w: Workflow, j: nat, x: Element)
    requires AllConvert(w) && j < |Faults(w.links)| && x == Synth(Faults(w.links)[j])
    ensures |w.items| + j < |Ids(w)| && Elements(w)[|w.items| + j] == x && Returns(w, |w.items| + j, x)
  {
    SynthAt(w, j);
    SynthBack(Faults(w.links)[j]);
  }

  lemma ElementBack(w: Workflow, i: nat)
    requires AllConvert(w) && i < |Ids(w)|
    ensures Returns(w, i, Elements(w)[i])
  {
    if i < |w.items| {
      ItemReturns(w, i);
    } else {
      var j := i - |w.items|;
      SynthReturns(w, j, Synth(Faults(w.links)[j]));
    }
  }

  lemma ModelDraws(w: Workflow, m: Model)
    requires Convertible(w) && m == Model(Elements(w), Arrows(w))
    ensures Drawable(m)
  {
    forall i | 0 <= i < |m.elements| ensures ItemOf(m.elements[i]).Some? { ElementBack(w, i); }
  }

  lemma LinkBack(w: Workflow, m: Model, k: nat)
    requires Convertible(w) && m == Model(Elements(w), Arrows(w)) && k < |m.arrows| && Drawable(m)
    ensures var e, l := Order(w)[k], LinkOf(m, m.arrows[k]);
      && l.source == SourceId(e) && l.target == e.target && l.onError.None?
      && (l.condition.None? <==> TestOn(e).None?) && (l.isDefault ==> TestOn(e).None?) && TestOn(l) == TestOn(e)
  {
    var a := m.arrows[k];
    assert a == ArrowOf(Ids(w), Order(w)[k], k);
    ElementBack(w, a.source);
    ElementBack(w, a.target);
    if a.test.Some? { TestBack(a.test.value); }
  }

  lemma ItemComesBack(w: Workflow, m: Model, v: Workflow, id: string, i: nat)
    requires Convertible(w) && m == Model(Elements(w), Arrows(w)) && ToWorkflow(m, id) == Some(v)
    ensures ItemMirrors(w, v, i)
  {
    if i < |Ids(w)| { ElementBack(w, i); }
  }

  lemma LinkComesBack(w: Workflow, m: Model, v: Workflow, id: string, k: nat)
    requires Convertible(w) && m == Model(Elements(w), Arrows(w)) && ToWorkflow(m, id) == Some(v)
    ensures LinkMirrors(w, v, k)
  {
    if k < |Order(w)| { LinkBack(w, m, k); }
  }

  /** Every graph that a conversion made can be drawn again. */
  lemma ComesBack(w: Workflow, id: string) returns (m: Model, v: Workflow)
    requires Convertible(w)
    ensures ToModel(w) == Some(m) && ToWorkflow(m, id) == Some(v) && Mirrors(w, v)
    ensures m == Model(Elements(w), Arrows(w)) && Drawable(m)
  {
    m := Model(Elements(w), Arrows(w));
    ModelDraws(w, m);
    v := ToWorkflow(m, id).value;
    forall i: nat ensures ItemMirrors(w, v, i) { ItemComesBack(w, m, v, id, i); }
    forall k: nat ensures LinkMirrors(w, v, k) { LinkComesBack(w, m, v, id, k); }
  }

  lemma ClashIsRefused(w: Workflow, v: Workflow, i: nat, j: nat)
    requires Mirrors(w, v) && i < j < |Ids(w)| && Ids(w)[i] == Ids(w)[j]
    ensures !Valid(v)
  {
    assert ItemMirrors(w, v, i) && ItemMirrors(w, v, j);
    assert Repeats(v.items) && Broken(v, V1);
  }

  lemma DotIsRefused(w: Workflow, v: Workflow, n: nat)
    requires Mirrors(w, v) && n < |Ids(w)| && '.' in Ids(w)[n]
    ensures !Valid(v)
  {
    assert ItemMirrors(w, v, n);
    assert ItemBreaks(v, V2, v.items[n]) && Broken(v, V2);
  }

  /** Made ids that clash or hold a dot are refused on the way back. */
  lemma StaleIsRefused(w: Workflow, v: Workflow)
    requires AllConvert(w) && Mirrors(w, v) && !Fresh(w)
    ensures !Valid(v)
  {
    if i, j :| 0 <= i < j < |Ids(w)| && Ids(w)[i] == Ids(w)[j] {
      ClashIsRefused(w, v, i, j);
    } else {
      var i :| 0 <= i < |Faults(w.links)| && '.' in SynthId(Faults(w.links)[i]);
      SynthAt(w, i);
      DotIsRefused(w, v, |w.items| + i);
    }
  }

  // ---------------------------------------------------------------- validity on the way back

  /** All that the rules are checked with: a valid workflow with fresh ids and its mirror. */
  ghost predicate Setting(w: Workflow, v: Workflow) {
    Valid(w) && AllConvert(w) && Fresh(w) && Mirrors(w, v)
  }

  lemma MirrorIds(w: Workflow, v: Workflow, i: nat)
    requires Setting(w, v) && i < |v.items|
    ensures v.items[i].id == Ids(w)[i] && '.' !in v.items[i].id && Lookup(v.items, v.items[i].id) == Some(v.items[i])
  {
    assert ItemMirrors(w, v, i);
    forall j, k | 0 <= j < k < |v.items| ensures v.items[j].id != v.items[k].id {
      assert ItemMirrors(w, v, j) && ItemMirrors(w, v, k);
    }
    LookupAt(v.items, i);
    if i < |w.items| {
      ValidItem(w, V2, i);
    } else {
      assert Ids(w)[|w.items| + (i - |w.items|)] == SynthId(Faults(w.links)[i - |w.items|]);
    }
  }

  /** What an item's id stands for on both sides. */
  lemma {:induction false} MirrorLookup(w: Workflow, v: Workflow, id: string)
    requires Setting(w, v) && Lookup(w.items, id).Some? && '.' !in id
    ensures Lookup(v.items, id).Some? && Alike(Lookup(w.items, id).value, Lookup(v.items, id).value)
  {
    var item := Lookup(w.items, id).value;
    var i :| 0 <= i < |w.items| && w.items[i] == item;
    assert ItemMirrors(w, v, i);
    MirrorIds(w, v, i);
  }

  lemma SynthLookup(w: Workflow, v: Workflow, e: Link)
    requires Setting(w, v) && e in Faults(w.links) && e.onError.Some?
    ensures '.' !in SynthId(e) && Lookup(v.items, SynthId(e)).Some? &&
      Lookup(v.items, SynthId(e)).value.BoundaryErrorItem?
  {
    var i :| 0 <= i < |Faults(w.links)| && Faults(w.links)[i] == e;
    var n := |w.items| + i;
    assert Ids(w)[|w.items| + i] == SynthId(e) && ItemMirrors(w, v, n);
    MirrorIds(w, v, n);
  }

  /** An end of a mirrored link: an id without a dot, of an item that is no data object. */
  ghost predicate Sound(v: Workflow, id: string) {
    '.' !in id && Lookup(v.items, id).Some? && !Lookup(v.items, id).value.DataItem?
  }

  lemma {:induction false} OldEnd(w: Workflow, v: Workflow, id: string)
    requires Setting(w, v) && '.' !in id && Lookup(w.items, id).Some? && !OnData(w.items, id)
    ensures Sound(v, id)
  {
    MirrorLookup(w, v, id);
  }

  lemma OrderEnds(w: Workflow, v: Workflow, e: Link)
    requires Setting(w, v) && e in w.links && (e.onError.Some? ==> e in Faults(w.links))
    ensures Sound(v, SourceId(e)) && Sound(v, e.target)
  {
    LinkRefs(w, e);
    ValidLink(w, V16, e);
    OldEnd(w, v, e.target);
    if e.onError.Some? { SynthLookup(w, v, e); } else { OldEnd(w, v, e.source); }
  }

  lemma MirrorEnds(w: Workflow, v: Workflow, k: nat)
    requires Setting(w, v) && k < |v.links|
    ensures Sound(v, v.links[k].source) && Sound(v, v.links[k].target)
  {
    assert LinkMirrors(w, v, k);
    OrderAt(w, k);
    OrderEnds(w, v, Order(w)[k]);
  }

  lemma LinksKeepRules(w: Workflow, v: Workflow, k: nat, r: Rule)
    requires Setting(w, v) && k < |v.links|
    ensures !LinkBreaks(v, r, v.links[k])
  {
    assert LinkMirrors(w, v, k);
    MirrorEnds(w, v, k);
  }

  // ---------------------------------------------------------------- counting

  lemma KindsCount(w: Workflow, v: Workflow, k: nat)
    requires Mirrors(w, v) && k <= |v.items|
    ensures var n := if k < |w.items| then k else |w.items|;
      Starts(v.items[..k]) == Starts(w.items[..n]) && Ends(v.items[..k]) == Ends(w.items[..n])
    decreases k
  {
    if k > 0 {
      KindsCount(w, v, k - 1);
      assert ItemMirrors(w, v, k - 1);
      assert v.items[..k][..k - 1] == v.items[..k - 1];
      if k <= |w.items| { assert w.items[..k][..k - 1] == w.items[..k - 1]; }
    }
  }

  lemma CountsSame(w: Workflow, v: Workflow)
    requires Mirrors(w, v)
    ensures Starts(v.items) == Starts(w.items) && Ends(v.items) == Ends(w.items)
  {
    KindsCount(w, v, |v.items|);
    assert v.items[..|v.items|] == v.items && w.items[..|w.items|] == w.items;
  }

  lemma {:induction false} OutConcat(a: seq<Link>, b: seq<Link>, id: string)
    ensures Outgoing(a + b, id) == Outgoing(a, id) + Outgoing(b, id)
    decreases |b|
  {
    if b == [] {
      assert a + b == a;
    } else {
      assert (a + b)[..|a + b| - 1] == a + b[..|b| - 1];
      OutConcat(a, b[..|b| - 1], id);
    }
  }

  lemma {:induction false} OutNone(a: seq<Link>, id: string)
    requires forall i :: 0 <= i < |a| ==> a[i].source != id
    ensures Outgoing(a, id) == []
  {
    if a != [] { OutNone(a[..|a| - 1], id); }
  }

  /** Without error links from `id`, leaving those out changes nothing there. */
  lemma {:induction false} PlainOut(links: seq<Link>, id: string)
    requires forall i :: 0 <= i < |links| && links[i].onError.Some? ==> links[i].source != id
    ensures Outgoing(Plain(links), id) == Outgoing(links, id)
  {
    if links != [] {
      var init, last := links[..|links| - 1], links[|links| - 1];
      PlainOut(init, id);
      OutConcat(Plain(init), if last.onError.None? then [last] else [], id);
      assert [last][..0] == [];
    }
  }

  lemma {:induction false} DefaultsSnoc(a: seq<Link>, e: Link)
    ensures Defaults(a + [e]) == Defaults(a) + (if IsDefault(e) then 1 else 0)
  {
    assert (a + [e])[..|a + [e]| - 1] == a;
  }

  ghost predicate SameOut(a: seq<Link>, b: seq<Link>, id: string, k: nat) {
    k < |a| == |b| ==> (a[k].source == id <==> b[k].source == id) && (a[k].source == id ==>
      (IsDefault(a[k]) <==> IsDefault(b[k])))
  }

  lemma {:induction false} OutSame(a: seq<Link>, b: seq<Link>, id: string)
    requires |a| == |b| && forall k: nat {:trigger SameOut(a, b, id, k)} :: SameOut(a, b, id, k)
    ensures |Outgoing(a, id)| == |Outgoing(b, id)| && Defaults(Outgoing(a, id)) == Defaults(Outgoing(b, id))
    decreases |a|
  {
    if a != [] {
      var n := |a| - 1;
      forall k: nat ensures SameOut(a[..n], b[..n], id, k) { assert SameOut(a, b, id, k); }
      OutSame(a[..n], b[..n], id);
      assert SameOut(a, b, id, n);
      DefaultsSnoc(Outgoing(a[..n], id), a[n]);
      DefaultsSnoc(Outgoing(b[..n], id), b[n]);
      assert Outgoing(a[..n], id) + [] == Outgoing(a[..n], id) && Outgoing(b[..n], id) + [] == Outgoing(b[..n], id);
    }
  }

  lemma UniqueLookup(w: Workflow, i: nat)
    requires Valid(w) && i < |w.items|
    ensures Lookup(w.items, w.items[i].id) == Some(w.items[i])
  {
    ValidHolds(w, V1);
    LookupAt(w.items, i);
  }

  /** Error links leave tasks only. */
  lemma FaultsLeaveTasks(w: Workflow, e: Link, i: nat)
    requires Valid(w) && AllConvert(w) && e in w.links && e.onError.Some? && i < |w.items| && !w.items[i].ServiceItem?
    ensures e.source != w.items[i].id
  {
    LinkRefs(w, e);
    ValidLink(w, V15, e);
    UniqueLookup(w, i);
  }

  lemma OrderOut(w: Workflow, i: nat)
    requires Valid(w) && AllConvert(w) && i < |w.items| && !w.items[i].ServiceItem?
    ensures Outgoing(Order(w), w.items[i].id) == Outgoing(w.links, w.items[i].id)
  {
    var id := w.items[i].id;
    forall k | 0 <= k < |w.links| && w.links[k].onError.Some?
      ensures w.links[k].source != id { FaultsLeaveTasks(w, w.links[k], i); }
    forall k | 0 <= k < |Faults(w.links)| ensures Faults(w.links)[k].source != id {
      FaultsIn(w.links, k);
      FaultsLeaveTasks(w, Faults(w.links)[k], i);
    }
    PlainOut(w.links, id);
    OutNone(Faults(w.links), id);
    OutConcat(Plain(w.links), Faults(w.links), id);
  }

  lemma FaultSameOut(w: Workflow, v: Workflow, i: nat, k: nat)
    requires Setting(w, v) && i < |w.items| && !w.items[i].ServiceItem?
    requires k < |Order(w)| && Order(w)[k].onError.Some?
    ensures SameOut(Order(w), v.links, w.items[i].id, k)
  {
    assert LinkMirrors(w, v, k);
    OrderAt(w, k);
    FaultsLeaveTasks(w, Order(w)[k], i);
    SynthAt(w, k - |Plain(w.links)|);
    assert Ids(w)[i] == w.items[i].id;
  }

  lemma LinkSameOut(w: Workflow, v: Workflow, i: nat, k: nat)
    requires Setting(w, v) && i < |w.items| && !w.items[i].ServiceItem?
    ensures SameOut(Order(w), v.links, w.items[i].id, k)
  {
    if k < |Order(w)| {
      if Order(w)[k].onError.Some? {
        FaultSameOut(w, v, i, k);
      } else {
        assert LinkMirrors(w, v, k);
        OrderAt(w, k);
      }
    }
  }

  lemma OutCounts(w: Workflow, v: Workflow, i: nat)
    requires Setting(w, v) && i < |w.items| && !w.items[i].ServiceItem?
    ensures var id := w.items[i].id;
      |Outgoing(v.links, id)| == |Outgoing(w.links, id)| && Defaults(Outgoing(v.links, id)) ==
        Defaults(Outgoing(w.links, id))
  {
    forall k: nat ensures SameOut(Order(w), v.links, w.items[i].id, k) { LinkSameOut(w, v, i, k); }
    OutSame(Order(w), v.links, w.items[i].id);
    OrderOut(w, i);
  }

  lemma ItemsKeepRules(w: Workflow, v: Workflow, i: nat, r: Rule)
    requires Setting(w, v) && i < |v.items|
    ensures !ItemBreaks(v, r, v.items[i])
  {
    assert ItemMirrors(w, v, i);
    MirrorIds(w, v, i);
    if i < |w.items| && (r == V7 || r == V11 || r == V12) {
      ValidItem(w, r, i);
      if w.items[i].ExclusiveItem? || w.items[i].BoundaryTimerItem? { OutCounts(w, v, i); }
      if w.items[i].BoundaryTimerItem? { HostMirrors(w, v, i); }
    }
  }

  lemma HostMirrors(w: Workflow, v: Workflow, i: nat)
    requires Setting(w, v) && i < |w.items| && w.items[i].BoundaryTimerItem?
    ensures Lookup(v.items, w.items[i].host).Some? && Lookup(v.items, w.items[i].host).value.ServiceItem?
  {
    ValidItem(w, V11, i);
    var host := Lookup(w.items, w.items[i].host).value;
    var j :| 0 <= j < |w.items| && w.items[j] == host;
    ValidItem(w, V2, j);
    MirrorLookup(w, v, w.items[i].host);
  }

  /** With fresh ids, what comes back is valid. */
  lemma MirrorIsValid(w: Workflow, v: Workflow)
    requires Setting(w, v)
    ensures Valid(v)
  {
    CountsSame(w, v);
    forall r ensures !Broken(v, r) {
      ValidHolds(w, r);
      forall i | 0 <= i < |v.items| ensures !ItemBreaks(v, r, v.items[i]) { ItemsKeepRules(w, v, i, r); }
      forall k | 0 <= k < |v.links| ensures !LinkBreaks(v, r, v.links[k]) { LinksKeepRules(w, v, k, r); }
      forall j, k | 0 <= j < k < |v.items| ensures v.items[j].id != v.items[k].id {
        assert ItemMirrors(w, v, j) && ItemMirrors(w, v, k);
      }
    }
  }

  // ---------------------------------------------------------------- the fixed point

  lemma {:induction false} AllPlain(links: seq<Link>)
    requires forall i :: 0 <= i < |links| ==> links[i].onError.None?
    ensures Plain(links) == links && Faults(links) == []
  {
    if links != [] {
      var init, last := links[..|links| - 1], links[|links| - 1];
      AllPlain(init);
      assert links == init + [last];
      assert Plain(links) == init + [last] && Faults(links) == [];
    }
  }

  lemma MirrorOrder(w: Workflow, v: Workflow)
    requires Mirrors(w, v)
    ensures Faults(v.links) == [] && Order(v) == v.links && Ids(v) == Ids(w)
  {
    forall k | 0 <= k < |v.links| ensures v.links[k].onError.None? { assert LinkMirrors(w, v, k); }
    AllPlain(v.links);
    forall i | 0 <= i < |Ids(w)| ensures Ids(v)[i] == Ids(w)[i] { assert ItemMirrors(w, v, i); }
  }

  lemma SameElements(w: Workflow, m: Model, v: Workflow, id: string)
    requires Convertible(w) && m == Model(Elements(w), Arrows(w)) && ToWorkflow(m, id) == Some(v) && Mirrors(w, v)
    ensures AllConvert(v) && Elements(v) == m.elements
  {
    MirrorOrder(w, v);
    forall i | 0 <= i < |v.items| ensures ElementOf(v.items[i]) == Some(m.elements[i]) { ElementBack(w, i); }
    forall i | 0 <= i < |m.elements|
      ensures Elements(v)[i] == m.elements[i] { assert Converted(v.items)[i] == m.elements[i]; }
  }

  lemma SameArrow(w: Workflow, m: Model, l: Link, k: nat)
    requires Convertible(w) && m == Model(Elements(w), Arrows(w)) && Drawable(m) && k < |m.arrows| &&
      l == LinkOf(m, m.arrows[k])
    ensures Resolved(Ids(w), l) && ArrowOf(Ids(w), l, k) == m.arrows[k]
  {
    LinkBack(w, m, k);
    assert Resolved(Ids(w), Order(w)[k]) && m.arrows[k] == ArrowOf(Ids(w), Order(w)[k], k);
  }

  lemma SameArrows(w: Workflow, m: Model, v: Workflow, id: string)
    requires Convertible(w) && m == Model(Elements(w), Arrows(w)) && ToWorkflow(m, id) == Some(v) && Mirrors(w, v) &&
      Drawable(m)
    ensures (forall k :: 0 <= k < |Order(v)| ==> Resolved(Ids(v), Order(v)[k])) && Arrows(v) == m.arrows
  {
    MirrorOrder(w, v);
    forall k | 0 <= k < |v.links|
      ensures Resolved(Ids(w), v.links[k]) && ArrowOf(Ids(w), v.links[k], k) == m.arrows[k] {
      SameArrow(w, m, v.links[k], k);
    }
    ArrowsAre(v, Ids(w), v.links, m.arrows);
  }

  lemma ArrowsAre(v: Workflow, ids: seq<string>, links: seq<Link>, arrows: seq<Arrow>)
    requires Order(v) == links && Ids(v) == ids && |arrows| == |links|
    requires forall k :: 0 <= k < |links| ==> Resolved(ids, links[k]) && ArrowOf(ids, links[k], k) == arrows[k]
    ensures (forall k :: 0 <= k < |Order(v)| ==> Resolved(Ids(v), Order(v)[k])) && Arrows(v) == arrows
  {
  }

  /** A workflow that converts comes back as a workflow, and that one converts again if and only
      if the ids made for its error links are new, distinct and without a dot; then it
      gives the identical graph. */
  lemma FixedPoint(w: Workflow, id: string) returns (m: Model, v: Workflow)
    requires ToModel(w).Some?
    ensures ToModel(w) == Some(m) && ToWorkflow(m, id) == Some(v)
    ensures Valid(v) <==> Fresh(w)
    ensures ToModel(v) == if Fresh(w) then Some(m) else None
  {
    m, v := ComesBack(w, id);
    if Fresh(w) {
      MirrorIsValid(w, v);
      SameElements(w, m, v, id);
      SameArrows(w, m, v, id);
    } else {
      StaleIsRefused(w, v);
    }
  }

  /** Converting again changes nothing more. */
  lemma NormalForm(w: Workflow, id: string) returns (m: Model, v: Workflow)
    requires ToModel(w).Some? && Fresh(w)
    ensures ToModel(w) == Some(m) && ToWorkflow(m, id) == Some(v) && ToModel(v) == Some(m) && Fresh(v)
  {
    m, v := FixedPoint(w, id);
    var m', v' := ComesBack(w, id);
    MirrorOrder(w, v);
  }

  // ---------------------------------------------------------------- an id that does not come back

  const LEAVE := Link("a", "e", None, false, Some(ErrorEdge("x.y", 0)))

  /** A task with an error link whose code holds a dot. */
  const DOTTED: Workflow := Workflow("w",
    [StartItem("s"), ServiceItem("a", "t", None), EndItem("e", false)],
    [Link("s", "a", None, false, None), Link("a", "e", None, false, None), LEAVE])

  lemma DottedLookups()
    ensures Lookup(DOTTED.items, "s") == Some(StartItem("s"))
    ensures Lookup(DOTTED.items, "a") == Some(ServiceItem("a", "t", None))
    ensures Lookup(DOTTED.items, "e") == Some(EndItem("e", false))
  {
    forall j, k | 0 <= j < k < |DOTTED.items| ensures DOTTED.items[j].id != DOTTED.items[k].id {
      assert "s"[0] != "a"[0] && "s"[0] != "e"[0] && "a"[0] != "e"[0];
    }
    LookupAt(DOTTED.items, 0);
    LookupAt(DOTTED.items, 1);
    LookupAt(DOTTED.items, 2);
  }

  lemma DottedCounts()
    ensures Starts(DOTTED.items) == 1 && Ends(DOTTED.items) == 1
  {
    var a, b, c := StartItem("s"), ServiceItem("a", "t", None), EndItem("e", false);
    assert DOTTED.items[..2] == [a, b] && [a, b][..1] == [a] && [a][..0] == [];
    assert Starts([a]) == 1 && Ends([a]) == 0;
    assert Starts([a, b]) == 1 && Ends([a, b]) == 0;
    assert DOTTED.items[2] == c;
  }

  lemma DottedLinks(k: nat, r: Rule)
    requires k < |DOTTED.links|
    ensures !LinkBreaks(DOTTED, r, DOTTED.links[k])
  {
    DottedLookups();
  }

  lemma DottedIsValid()
    ensures Valid(DOTTED) && AllConvert(DOTTED)
  {
    DottedCounts();
    assert "s"[0] != "a"[0] && "s"[0] != "e"[0] && "a"[0] != "e"[0];
    forall r ensures !Broken(DOTTED, r) {
      forall k | 0 <= k < |DOTTED.links| ensures !LinkBreaks(DOTTED, r, DOTTED.links[k]) { DottedLinks(k, r); }
    }
  }

  lemma DottedFault()
    ensures Faults(DOTTED.links) == [LEAVE]
  {
    var a, b := Link("s", "a", None, false, None), Link("a", "e", None, false, None);
    assert DOTTED.links[..2] == [a, b];
    AllPlain([a, b]);
  }

  /** It converts, and what comes back does not. */
  lemma DottedIsRefused(id: string) returns (m: Model, v: Workflow)
    ensures ToModel(DOTTED) == Some(m) && ToWorkflow(m, id) == Some(v) && ToModel(v) == None
  {
    DottedIsValid();
    AlwaysResolved(DOTTED);
    DottedFault();
    assert SynthId(LEAVE)[7] == '.';
    assert Faults(DOTTED.links)[0] == LEAVE;
    m, v := FixedPoint(DOTTED, id);
  }

  // ---------------------------------------------------------------- as it is computed

  function Got(index: map<string, nat>, id: string): Option<nat> {
    if id in index then Some(index[id]) else None
  }

  /** The index holds the last place of every id. */
  ghost predicate Indexes(index: map<string, nat>, ids: seq<string>) {
    forall id {:trigger Got(index, id)} :: Got(index, id) == Last(ids, id)
  }

  lemma IndexNext(index: map<string, nat>, ids: seq<string>, id: string)
    requires Indexes(index, ids)
    ensures Indexes(index[id := |ids|], ids + [id])
  {
    var now, all := index[id := |ids|], ids + [id];
    forall x ensures Got(now, x) == Last(all, x) {
      assert Got(index, x) == Last(ids, x);
      assert all[..|all| - 1] == ids;
    }
  }

  /** Parts the links with an error code from the others. */
  method Part(links: seq<Link>) returns (plain: seq<Link>, faults: seq<Link>)
    ensures plain == Plain(links) && faults == Faults(links)
  {
    plain, faults := [], [];
    for i := 0 to |links|
      invariant plain == Plain(links[..i]) && faults == Faults(links[..i])
    {
      assert links[..i + 1][..i] == links[..i];
      if links[i].onError.Some? { faults := faults + [links[i]]; } else { plain := plain + [links[i]]; }
    }
    assert links[..|links|] == links;
  }

  /** Converts the items, in order, and indexes them. */
  method ConvertItems(items: seq<Item>) returns (ok: bool, elements: seq<Element>, index: map<string, nat>)
    ensures ok <==> forall i :: 0 <= i < |items| ==> ElementOf(items[i]).Some?
    ensures ok ==> elements == Converted(items) && Indexes(index, ItemIds(items))
  {
    ok, elements, index := true, [], map[];
    ghost var ids := ItemIds(items);
    for i := 0 to |items|
      invariant |elements| == i && forall j :: 0 <= j < i ==> ElementOf(items[j]) == Some(elements[j])
      invariant Indexes(index, ids[..i])
    {
      var item := items[i];
      var element := ElementOf(item);
      if element.None? { return false, elements, index; }
      IndexNext(index, ids[..i], item.id);
      assert ids[..i + 1] == ids[..i] + [item.id];
      elements := elements + [element.value];
      index := index[item.id := i];
    }
    assert ids[..|items|] == ids;
  }

  lemma SynthIndex(base: seq<string>, faults: seq<Link>, i: nat, index: map<string, nat>)
    requires i < |faults| && (forall k :: 0 <= k < |faults| ==> faults[k].onError.Some?)
    requires Indexes(index, base + SynthIds(faults)[..i])
    ensures Indexes(index[SynthId(faults[i]) := |base| + i], base + SynthIds(faults)[..i + 1])
  {
    var id, ids := SynthId(faults[i]), base + SynthIds(faults)[..i];
    IndexNext(index, ids, id);
    assert base + SynthIds(faults)[..i + 1] == ids + [id];
  }

  /** Makes a boundary event for every error link. */
  method MakeFaults(faults: seq<Link>, n: nat, index0: map<string, nat>, ghost base: seq<string>)
    returns (made: seq<Element>, index: map<string, nat>)
    requires (forall k :: 0 <= k < |faults| ==> faults[k].onError.Some?) && n == |base| && Indexes(index0, base)
    ensures made == Made(faults) && Indexes(index, base + SynthIds(faults))
  {
    made, index := [], index0;
    assert base + SynthIds(faults)[..0] == base;
    for i := 0 to |faults|
      invariant made == Made(faults)[..i] && Indexes(index, base + SynthIds(faults)[..i])
    {
      SynthIndex(base, faults, i, index);
      index := index[SynthId(faults[i]) := n + i];
      made := made + [Synth(faults[i])];
    }
    assert SynthIds(faults)[..|faults|] == SynthIds(faults);
  }

  /** Wires links up, numbering on from the arrows there are. */
  method Wire(ids: seq<string>, index: map<string, nat>, links: seq<Link>) returns (ok: bool, arrows: seq<Arrow>)
    requires Indexes(index, ids)
    ensures ok <==> forall k :: 0 <= k < |links| ==> Resolved(ids, links[k])
    ensures ok ==> |arrows| == |links| && forall k :: 0 <= k < |links| ==> arrows[k] == ArrowOf(ids, links[k], k)
  {
    ok, arrows := true, [];
    for k := 0 to |links|
      invariant |arrows| == k && forall j :: 0 <= j < k ==>
        Resolved(ids, links[j]) && arrows[j] == ArrowOf(ids, links[j], j)
    {
      var e := links[k];
      var source, target := Got(index, SourceId(e)), Got(index, e.target);
      if source.None? || target.None? { return false, arrows; }
      arrows := arrows + [Arrow(source.value, target.value, k, TestOn(e))];
    }
  }

  /** Converts a workflow to the compiler's graph. */
  method Convert(w: Workflow) returns (r: Option<Model>)
    ensures r == ToModel(w)
  {
    var broken := Validate(w);
    if broken != {} { return None; }
    var plain, faults := Part(w.links);
    var ok, elements, index := ConvertItems(w.items);
    if !ok { return None; }
    var made;
    made, index := MakeFaults(faults, |w.items|, index, ItemIds(w.items));
    elements := elements + made;
    var wired, arrows := Wire(Ids(w), index, plain + faults);
    AlwaysResolved(w);
    assert arrows == Arrows(w);
    return Some(Model(elements, arrows));
  }

  /** The exclusive gateways that have a flow with a test. */
  method Tested(m: Model) returns (tested: set<nat>)
    requires forall k :: 0 <= k < |m.arrows| ==> m.arrows[k].source < |m.elements|
    ensures forall n: nat :: n in tested <==> n < |m.elements| && m.elements[n].XorElement? && HasTest(m, n)
  {
    tested := {};
    for k := 0 to |m.arrows|
      invariant forall n: nat :: n in tested <==>
        exists j :: 0 <= j < k && m.arrows[j].source == n && m.arrows[j].test.Some? && m.elements[n].XorElement?
    {
      var a := m.arrows[k];
      if a.test.Some? && m.elements[a.source].XorElement? { tested := tested + {a.source}; }
    }
  }

  /** Draws a graph as a workflow. */
  method Draw(m: Model, id: string) returns (r: Option<Workflow>)
    requires forall k :: 0 <= k < |m.arrows| ==> m.arrows[k].source < |m.elements| && m.arrows[k].target < |m.elements|
    ensures r == ToWorkflow(m, id)
  {
    var items: seq<Item> := [];
    for i := 0 to |m.elements|
      invariant |items| == i && forall j :: 0 <= j < i ==> ItemOf(m.elements[j]) == Some(items[j])
    {
      var item := ItemOf(m.elements[i]);
      if item.None? { return None; }
      items := items + [item.value];
    }
    var tested := Tested(m);
    var links: seq<Link> := [];
    for k := 0 to |m.arrows|
      invariant |links| == k && forall j :: 0 <= j < k ==> links[j] == LinkOf(m, m.arrows[j])
    {
      var a := m.arrows[k];
      var condition := if a.test.Some? then Some(FlagOf(a.test.value)) else None;
      links := links + [Link(items[a.source].id, items[a.target].id, condition, a.test.None? && a.source in tested,
        None)];
    }
    assert items == ToWorkflow(m, id).value.items && links == ToWorkflow(m, id).value.links;
    return Some(Workflow(id, items, links));
  }
}
