/** Audit metadata: an object graph is validated within limits, copied, and its secrets redacted. */
module Sanitizer {
  import opened Common
  import opened Json

  const MAX_DEPTH := 32
  const MAX_NODES := 1000
  const MAX_TEXT_BYTES := 64 * 1024

  /** "[REDACTED]" */
  const REDACTED: Text := [0x5B, 0x52, 0x45, 0x44, 0x41, 0x43, 0x54, 0x45, 0x44, 0x5D]

  // ----- object graphs -----

  datatype Value = Plain(scalar: Scalar) | Ref(id: nat)

  /** A dictionary key may be any scalar; a list element has no key. */
  datatype Slot = Slot(key: Option<Scalar>, value: Value)

  datatype Container = Container(dict: bool, slots: seq<Slot>)

  type Graph = map<nat, Container>

  predicate SlotClosed(g: Graph, dict: bool, slot: Slot) {
    (slot.value.Ref? ==> slot.value.id in g) && (slot.key.Some? <==> dict)
  }

  /** References lead somewhere, and exactly the elements of dictionaries have keys. */
  ghost predicate Closed(g: Graph) {
    forall id, i :: id in g && 0 <= i < |g[id].slots| ==> SlotClosed(g, g[id].dict, g[id].slots[i])
  }

  predicate ValueIn(g: Graph, v: Value) {
    v.Ref? ==> v.id in g
  }

  predicate SlotsIn(g: Graph, dict: bool, slots: seq<Slot>) {
    forall i :: 0 <= i < |slots| ==> SlotClosed(g, dict, slots[i])
  }

  // ----- the finite value that a graph unfolds to, if it does -----

  predicate Represents(g: Graph, v: Value, j: Json)
    decreases j
  {
    match v
    case Plain(scalar) => j == Leaf(scalar)
    case Ref(id) => id in g && j.Box? && j.dict == g[id].dict && RepresentsAll(g, g[id].slots, j.children)
  }

  predicate RepresentsAll(g: Graph, slots: seq<Slot>, children: Children)
    decreases children
  {
    match children
    case End => slots == []
    case Child(name, value, rest) =>
      && slots != []
      && (if slots[0].key.None? then name.None? else slots[0].key.value.Str? && name == Some(slots[0].key.value.text))
      && Represents(g, slots[0].value, value)
      && RepresentsAll(g, slots[1..], rest)
  }

  lemma {:induction false} RepresentsOne(g: Graph, v: Value, j: Json, k: Json)
    requires Represents(g, v, j) && Represents(g, v, k)
    ensures j == k
    decreases j
  {
    if v.Ref? {
      RepresentsOneAll(g, g[v.id].slots, j.children, k.children);
    }
  }

  lemma {:induction false} RepresentsOneAll(g: Graph, slots: seq<Slot>, x: Children, y: Children)
    requires RepresentsAll(g, slots, x) && RepresentsAll(g, slots, y)
    ensures x == y
    decreases x
  {
    if x.Child? {
      RepresentsOne(g, slots[0].value, x.value, y.value);
      RepresentsOneAll(g, slots[1..], x.rest, y.rest);
    }
  }

  // ----- validation -----

  datatype Budget = Budget(nodes: nat, textBytes: nat)

  function SpendText(b: Budget, s: Text): Option<Budget> {
    if !Encodable(s) || b.textBytes + Utf8Length(s) > MAX_TEXT_BYTES then None
    else Some(b.(textBytes := b.textBytes + Utf8Length(s)))
  }

  function SpendKey(b: Budget, key: Option<Scalar>): Option<Budget> {
    if key.None? then Some(b)
    else if !key.value.Str? then None
    else SpendText(b, key.value.text)
  }

  function SpendScalar(b: Budget, scalar: Scalar): Option<Budget> {
    if scalar.Str? then SpendText(b, scalar.text)
    else if ScalarFine(scalar) then Some(b)
    else None
  }

  /** One value and all below it: what is left of the budget, or None when it is refused. */
  function Validated(g: Graph, v: Value, depth: nat, ancestors: set<nat>, b: Budget): (r: Option<Budget>)
    requires Closed(g) && ValueIn(g, v)
    ensures r.Some? ==> b.nodes < r.value.nodes <= MAX_NODES
    decreases MAX_NODES + 1 - b.nodes, 0
  {
    if b.nodes + 1 > MAX_NODES || depth > MAX_DEPTH then None
    else match v
      case Plain(scalar) => SpendScalar(b.(nodes := b.nodes + 1), scalar)
      case Ref(id) =>
        if id in ancestors then None
        else ValidatedAll(g, g[id].dict, g[id].slots, depth + 1, ancestors + {id}, b.(nodes := b.nodes + 1))
  }

  function ValidatedAll(g: Graph, dict: bool, slots: seq<Slot>, depth: nat, ancestors: set<nat>,
                        b: Budget): (r: Option<Budget>)
    requires Closed(g) && SlotsIn(g, dict, slots) && b.nodes <= MAX_NODES
    ensures r.Some? ==> b.nodes <= r.value.nodes <= MAX_NODES
    decreases MAX_NODES + 1 - b.nodes, 1 + |slots|
  {
    if slots == [] then Some(b)
    else
      var keyed := SpendKey(b, slots[0].key);
      if keyed.None? then None
      else
        assert SlotClosed(g, dict, slots[0]);
        var first := Validated(g, slots[0].value, depth, ancestors, keyed.value);
        if first.None? then None
        else ValidatedAll(g, dict, slots[1..], depth, ancestors, first.value)
  }

  // ----- accepted means: unfolds to a finite value within the limits -----

  /** Every container on the way down contains this value properly. */
  ghost predicate Above(g: Graph, ancestors: set<nat>, size: nat) {
    forall id :: id in ancestors ==> exists k :: Represents(g, Ref(id), k) && Nodes(k) > size
  }

  predicate Fits(j: Json, depth: nat, b: Budget) {
    && b.nodes + Nodes(j) <= MAX_NODES
    && depth + Height(j) <= MAX_DEPTH
    && b.textBytes + TextBytes(j) <= MAX_TEXT_BYTES
    && Fine(j)
  }

  predicate FitsAll(children: Children, depth: nat, b: Budget) {
    && b.nodes + NodesOf(children) <= MAX_NODES
    && (children.Child? ==> depth + HeightOf(children) <= MAX_DEPTH)
    && b.textBytes + TextBytesOf(children) <= MAX_TEXT_BYTES
    && FineAll(children)
  }

  function Spent(j: Json, b: Budget): Budget {
    Budget(b.nodes + Nodes(j), b.textBytes + TextBytes(j))
  }

  function SpentAll(children: Children, b: Budget): Budget {
    Budget(b.nodes + NodesOf(children), b.textBytes + TextBytesOf(children))
  }

  /** A graph that unfolds is refused for its limits only, and sharing is paid for as often as it is reached. */
  lemma {:induction false} ValidatedFinite(g: Graph, v: Value, j: Json, depth: nat, ancestors: set<nat>, b: Budget)
    requires Closed(g) && ValueIn(g, v) && Represents(g, v, j)
    requires Above(g, ancestors, Nodes(j))
    requires b.nodes <= MAX_NODES && b.textBytes <= MAX_TEXT_BYTES
    ensures Validated(g, v, depth, ancestors, b) == if Fits(j, depth, b) then Some(Spent(j, b)) else None
    decreases j, 0
  {
    if v.Ref? && b.nodes + 1 <= MAX_NODES && depth <= MAX_DEPTH {
      NoCycle(g, v.id, j, ancestors);
      ValidatedFiniteAll(g, g[v.id].dict, g[v.id].slots, j.children, depth + 1, ancestors + {v.id},
                         b.(nodes := b.nodes + 1));
    }
  }

  /** A value that unfolds is not among its own ancestors; below it, it is one. */
  lemma NoCycle(g: Graph, id: nat, j: Json, ancestors: set<nat>)
    requires Represents(g, Ref(id), j) && Above(g, ancestors, Nodes(j))
    ensures id !in ancestors
    ensures Above(g, ancestors + {id}, NodesOf(j.children))
  {
    if id in ancestors {
      var k :| Represents(g, Ref(id), k) && Nodes(k) > Nodes(j);
      RepresentsOne(g, Ref(id), j, k);
      assert false;
    }
  }

  lemma {:induction false} ValidatedFiniteAll(g: Graph, dict: bool, slots: seq<Slot>, children: Children, depth: nat,
                                              ancestors: set<nat>, b: Budget)
    requires Closed(g) && SlotsIn(g, dict, slots) && RepresentsAll(g, slots, children)
    requires Above(g, ancestors, NodesOf(children))
    requires b.nodes <= MAX_NODES && b.textBytes <= MAX_TEXT_BYTES
    ensures ValidatedAll(g, dict, slots, depth, ancestors, b) ==
              if FitsAll(children, depth, b) then Some(SpentAll(children, b)) else None
    decreases children, 1
  {
    match children
    case End =>
    case Child(name, value, rest) =>
      var keyed := SpendKey(b, slots[0].key);
      KeyFits(slots[0], name, b);
      if keyed.Some? {
        assert SlotClosed(g, dict, slots[0]);
        ValidatedFinite(g, slots[0].value, value, depth, ancestors, keyed.value);
        var left := Spent(value, keyed.value);
        if Fits(value, depth, keyed.value) {
          ValidatedFiniteAll(g, dict, slots[1..], rest, depth, ancestors, left);
          assert ValidatedAll(g, dict, slots, depth, ancestors, b) ==
              ValidatedAll(g, dict, slots[1..], depth, ancestors, left);
        }
        FitsOneByOne(name, value, rest, depth, b);
      }
  }

  /** Fitting together is fitting one after the other. */
  lemma FitsOneByOne(name: Option<Text>, value: Json, rest: Children, depth: nat, b: Budget)
    requires name.Some? ==> Encodable(name.value)
    ensures var children, keyed := Child(name, value, rest), b.(textBytes := b.textBytes + NameBytes(name));
      && (FitsAll(children, depth, b) <==> Fits(value, depth, keyed) && FitsAll(rest, depth, Spent(value, keyed)))
      && SpentAll(children, b) == SpentAll(rest, Spent(value, keyed))
  {
    var children := Child(name, value, rest);
    assert FineAll(children) <==> Fine(value) && FineAll(rest);
    assert HeightOf(children) == if Height(value) > HeightOf(rest) then Height(value) else HeightOf(rest);
    assert NodesOf(children) == Nodes(value) + NodesOf(rest);
    assert TextBytesOf(children) == NameBytes(name) + TextBytes(value) + TextBytesOf(rest);
    assert rest.End? ==> HeightOf(rest) == 0;
  }

  lemma KeyFits(slot: Slot, name: Option<Text>, b: Budget)
    requires if slot.key.None? then name.None? else slot.key.value.Str? && name == Some(slot.key.value.text)
    requires b.textBytes <= MAX_TEXT_BYTES
    ensures SpendKey(b, slot.key)
         == if b.textBytes + NameBytes(name) <= MAX_TEXT_BYTES && (name.Some? ==> Encodable(name.value))
            then Some(b.(textBytes := b.textBytes + NameBytes(name)))
            else None
  {
  }

  /** The unfolding of an accepted value. */
  function Unfolded(g: Graph, v: Value, depth: nat, ancestors: set<nat>, b: Budget): (j: Json)
    requires Closed(g) && ValueIn(g, v) && Validated(g, v, depth, ancestors, b).Some?
    ensures Represents(g, v, j)
    decreases MAX_NODES + 1 - b.nodes, 0
  {
    match v
    case Plain(scalar) => Leaf(scalar)
    case Ref(id) =>
      Box(g[id].dict, UnfoldedAll(g, g[id].dict, g[id].slots, depth + 1, ancestors + {id}, b.(nodes := b.nodes + 1)))
  }

  function UnfoldedAll(g: Graph, dict: bool, slots: seq<Slot>, depth: nat, ancestors: set<nat>,
                       b: Budget): (children: Children)
    requires Closed(g) && SlotsIn(g, dict, slots) && b.nodes <= MAX_NODES
    requires ValidatedAll(g, dict, slots, depth, ancestors, b).Some?
    ensures RepresentsAll(g, slots, children)
    decreases MAX_NODES + 1 - b.nodes, 1 + |slots|
  {
    if slots == [] then End
    else
      var keyed := SpendKey(b, slots[0].key).value;
      assert SlotClosed(g, dict, slots[0]);
      var first := Validated(g, slots[0].value, depth, ancestors, keyed).value;
      Child(if slots[0].key.None? then None else Some(slots[0].key.value.text),
            Unfolded(g, slots[0].value, depth, ancestors, keyed),
            UnfoldedAll(g, dict, slots[1..], depth, ancestors, first))
  }

  const FULL := Budget(0, 0)

  /** Validation accepts exactly the graphs that unfold to a finite JSON value within every limit. */
  lemma AcceptedExactly(g: Graph, v: Value)
    requires Closed(g) && ValueIn(g, v)
    ensures Validated(g, v, 0, {}, FULL).Some? <==> exists j :: Represents(g, v, j) && Fits(j, 0, FULL)
  {
    if Validated(g, v, 0, {}, FULL).Some? {
      var j := Unfolded(g, v, 0, {}, FULL);
      ValidatedFinite(g, v, j, 0, {}, FULL);
    } else if exists j :: Represents(g, v, j) && Fits(j, 0, FULL) {
      var j :| Represents(g, v, j) && Fits(j, 0, FULL);
      ValidatedFinite(g, v, j, 0, {}, FULL);
    }
  }
}
