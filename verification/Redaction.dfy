/** The sanitised copy of accepted metadata, and the validator and copier as they run. */
module Redaction {
  import opened Common
  import opened Json
  import opened Sanitizer

  /** Whether a key is secret, after normalisation and case folding. */
  type Forbidden = Text -> bool

  predicate Secret(name: Option<Text>, forbidden: Forbidden) {
    name.Some? && forbidden(name.value)
  }

  const MASK := Leaf(Str(REDACTED))

  function Redacted(j: Json, forbidden: Forbidden): Json
    decreases j
  {
    match j
    case Leaf(_) => j
    case Box(dict, children) => Box(dict, RedactedAll(children, forbidden))
  }

  function RedactedAll(children: Children, forbidden: Forbidden): Children
    decreases children
  {
    match children
    case End => End
    case Child(name, value, rest) =>
      Child(name, if Secret(name, forbidden) then MASK else Redacted(value, forbidden), RedactedAll(rest, forbidden))
  }

  // ----- what is and is not in the copy -----

  function Nth(children: Children, i: nat): Option<(Option<Text>, Json)> {
    match children
    case End => None
    case Child(name, value, rest) => if i == 0 then Some((name, value)) else Nth(rest, i - 1)
  }

  /** The value at a path of child positions. */
  function AtPath(j: Json, path: seq<nat>): Option<Json>
    decreases |path|
  {
    if path == [] then Some(j)
    else if j.Leaf? || Nth(j.children, path[0]).None? then None
    else AtPath(Nth(j.children, path[0]).value.1, path[1..])
  }

  /** How many steps the path takes before it goes through a secret key; |path| when it never does. */
  function CleanSteps(j: Json, path: seq<nat>, forbidden: Forbidden): (n: nat)
    requires AtPath(j, path).Some?
    ensures n <= |path|
    decreases |path|
  {
    if path == [] then 0
    else
      var child := Nth(j.children, path[0]).value;
      if Secret(child.0, forbidden) then 0 else 1 + CleanSteps(child.1, path[1..], forbidden)
  }

  lemma {:induction false} NthRedacted(children: Children, i: nat, forbidden: Forbidden)
    ensures Nth(children, i).None? <==> Nth(RedactedAll(children, forbidden), i).None?
    ensures Nth(children, i).Some? ==>
              var child := Nth(children, i).value;
              Nth(RedactedAll(children, forbidden), i).value
              == (child.0, if Secret(child.0, forbidden) then MASK else Redacted(child.1, forbidden))
  {
    if children.Child? && i > 0 {
      NthRedacted(children.rest, i - 1, forbidden);
    }
  }

  /**
   * Every place of the original: reached by clean keys only, the copy has the same scalar or the same
   * kind of container there; at a secret key it has the mask; below a secret key it has nothing.
   */
  lemma {:induction false} RedactedAt(j: Json, path: seq<nat>, forbidden: Forbidden)
    requires AtPath(j, path).Some?
    ensures var n, copy := CleanSteps(j, path, forbidden), AtPath(Redacted(j, forbidden), path);
      if n == |path| then copy == Some(Redacted(AtPath(j, path).value, forbidden))
      else if n == |path| - 1 then copy == Some(MASK)
      else copy == None
    decreases |path|
  {
    if path != [] {
      var child := Nth(j.children, path[0]).value;
      NthRedacted(j.children, path[0], forbidden);
      if !Secret(child.0, forbidden) {
        RedactedAt(child.1, path[1..], forbidden);
      }
    }
  }

  /** No step of the path goes through a secret key. */
  predicate Clean(j: Json, path: seq<nat>, forbidden: Forbidden)
    decreases |path|
  {
    path == [] ||
    (&& j.Box? && Nth(j.children, path[0]).Some?
     && (var child := Nth(j.children, path[0]).value;
         && (child.0.Some? ==> !forbidden(child.0.value))
         && Clean(child.1, path[1..], forbidden)))
  }

  /** The same scalar, or the same kind of container with children under the same names. */
  ghost predicate Alike(x: Json, y: Json) {
    match x
    case Leaf(scalar) => y == Leaf(scalar)
    case Box(dict, children) =>
      && y.Box? && y.dict == dict
      && forall i: nat ::
           && (Nth(children, i).None? <==> Nth(y.children, i).None?)
           && (Nth(children, i).Some? ==> Nth(y.children, i).value.0 == Nth(children, i).value.0)
  }

  /** What is reached by clean keys only is in the copy, unchanged. */
  lemma {:induction false} CleanIsKept(j: Json, path: seq<nat>, forbidden: Forbidden)
    requires Clean(j, path, forbidden)
    ensures AtPath(j, path).Some? && AtPath(Redacted(j, forbidden), path).Some?
    ensures Alike(AtPath(j, path).value, AtPath(Redacted(j, forbidden), path).value)
    decreases |path|
  {
    if path == [] {
      if j.Box? {
        forall i: nat ensures Nth(j.children, i).None? <==> Nth(RedactedAll(j.children, forbidden), i).None?
                      ensures Nth(j.children, i).Some? ==>
                                Nth(RedactedAll(j.children, forbidden), i).value.0 == Nth(j.children, i).value.0
        {
          NthRedacted(j.children, i, forbidden);
        }
      }
    } else {
      NthRedacted(j.children, path[0], forbidden);
      CleanIsKept(Nth(j.children, path[0]).value.1, path[1..], forbidden);
    }
  }

  function Spelled(s: string): (text: Text)
    ensures |text| == |s|
  {
    seq(|s|, i requires 0 <= i < |s| => if s[i] < 128 as char then s[i] as int else 0)
  }

  /** A secret key keeps its place, its value is the mask, and nothing lies below it. */
  lemma {:induction false} SecretIsMasked(j: Json, path: seq<nat>, i: nat, below: seq<nat>, forbidden: Forbidden)
    requires Clean(j, path, forbidden) && AtPath(j, path).Some? && AtPath(j, path).value.Box?
    requires var child := Nth(AtPath(j, path).value.children, i);
      child.Some? && child.value.0.Some? && forbidden(child.value.0.value)
    ensures AtPath(Redacted(j, forbidden), path + [i]) == Some(Leaf(Str(Spelled("[REDACTED]"))))
    ensures below != [] ==> AtPath(Redacted(j, forbidden), path + [i] + below) == None
    decreases |path|
  {
    if path == [] {
      NthRedacted(j.children, i, forbidden);
      assert ([i] + below)[1..] == below && path + [i] == [i] && [i][1..] == [];
      assert REDACTED == Spelled("[REDACTED]");
    } else {
      NthRedacted(j.children, path[0], forbidden);
      SecretIsMasked(Nth(j.children, path[0]).value.1, path[1..], i, below, forbidden);
      assert (path + [i])[1..] == path[1..] + [i];
      assert (path + [i] + below)[1..] == path[1..] + [i] + below;
    }
  }

  /** Nothing that was not in the original is in the copy. */
  lemma {:induction false} NothingAdded(j: Json, path: seq<nat>, forbidden: Forbidden)
    requires AtPath(Redacted(j, forbidden), path).Some?
    ensures AtPath(j, path).Some?
    decreases |path|
  {
    if path != [] {
      NthRedacted(j.children, path[0], forbidden);
      var child := Nth(j.children, path[0]).value;
      if !Secret(child.0, forbidden) {
        NothingAdded(child.1, path[1..], forbidden);
      }
    }
  }

  lemma {:induction false} RedactedTwice(j: Json, forbidden: Forbidden)
    ensures Redacted(Redacted(j, forbidden), forbidden) == Redacted(j, forbidden)
    decreases j
  {
    if j.Box? {
      RedactedTwiceAll(j.children, forbidden);
    }
  }

  lemma {:induction false} RedactedTwiceAll(children: Children, forbidden: Forbidden)
    ensures RedactedAll(RedactedAll(children, forbidden), forbidden) == RedactedAll(children, forbidden)
    decreases children
  {
    if children.Child? {
      RedactedTwice(children.value, forbidden);
      RedactedTwiceAll(children.rest, forbidden);
    }
  }

  /** Redacting never adds nodes or levels, and keeps every scalar fine. */
  lemma {:induction false} RedactedSmaller(j: Json, forbidden: Forbidden)
    ensures Nodes(Redacted(j, forbidden)) <= Nodes(j)
    ensures Height(Redacted(j, forbidden)) <= Height(j)
    ensures Fine(j) ==> Fine(Redacted(j, forbidden))
    decreases j
  {
    if j.Box? {
      RedactedSmallerAll(j.children, forbidden);
    }
  }

  lemma {:induction false} RedactedSmallerAll(children: Children, forbidden: Forbidden)
    ensures NodesOf(RedactedAll(children, forbidden)) <= NodesOf(children)
    ensures HeightOf(RedactedAll(children, forbidden)) <= HeightOf(children)
    ensures FineAll(children) ==> FineAll(RedactedAll(children, forbidden))
    ensures RedactedAll(children, forbidden).End? <==> children.End?
    decreases children
  {
    if children.Child? {
      RedactedSmaller(children.value, forbidden);
      RedactedSmallerAll(children.rest, forbidden);
      assert Nodes(children.value) >= 1;
    }
  }

  // ----- sanitising -----

  predicate Short(j: Json, floats: FloatPrinter) {
    Utf8Length(Printed(j, floats)) <= MAX_TEXT_BYTES
  }

  /** None is the refusal; callers learn no more than that the metadata is invalid. */
  function Sanitized(g: Graph, id: nat, forbidden: Forbidden, floats: FloatPrinter): Option<Json>
    requires Closed(g) && id in g
  {
    if !g[id].dict || Validated(g, Ref(id), 0, {}, FULL).None? then None
    else
      var result := Redacted(Unfolded(g, Ref(id), 0, {}, FULL), forbidden);
      if Short(result, floats) then Some(result) else None
  }

  /** The result is the redacted unfolding of an object within the limits whose copy is short enough to store. */
  lemma SanitizedExactly(g: Graph, id: nat, forbidden: Forbidden, floats: FloatPrinter, r: Json)
    requires Closed(g) && id in g
    ensures Sanitized(g, id, forbidden, floats) == Some(r) <==>
            exists j :: Represents(g, Ref(id), j) && j.dict && Fits(j, 0, FULL) && r == Redacted(j, forbidden)
                && Short(r, floats)
  {
    AcceptedExactly(g, Ref(id));
    if Validated(g, Ref(id), 0, {}, FULL).Some? {
      var j := Unfolded(g, Ref(id), 0, {}, FULL);
      ValidatedFinite(g, Ref(id), j, 0, {}, FULL);
      forall k | Represents(g, Ref(id), k) ensures k == j {
        RepresentsOne(g, Ref(id), j, k);
      }
    }
  }

  /** Sanitising a result again accepts it and changes nothing, although the masks add text. */
  lemma SanitizedTwice(g: Graph, id: nat, again: Graph, root: nat, forbidden: Forbidden, floats: FloatPrinter)
    requires Closed(g) && id in g && Closed(again) && root in again
    requires Sanitized(g, id, forbidden, floats).Some?
    requires Represents(again, Ref(root), Sanitized(g, id, forbidden, floats).value)
    ensures Sanitized(again, root, forbidden, floats) == Sanitized(g, id, forbidden, floats)
  {
    var r := Sanitized(g, id, forbidden, floats).value;
    SanitizedExactly(g, id, forbidden, floats, r);
    var j :| Represents(g, Ref(id), j) && j.dict && Fits(j, 0, FULL) && r == Redacted(j, forbidden) && Short(r, floats);
    RedactedSmaller(j, forbidden);
    RedactedTwice(j, forbidden);
    PrintingBoundsText(r, floats);
    assert Fits(r, 0, FULL);
    SanitizedExactly(again, root, forbidden, floats, r);
  }

  // ----- as it runs -----

  class Validator {
    const g: Graph
    var nodes: nat
    var textBytes: nat
    var ancestors: set<nat>

    constructor (g: Graph)
      ensures this.g == g && nodes == 0 && textBytes == 0 && ancestors == {}
    {
      this.g, nodes, textBytes, ancestors := g, 0, 0, {};
    }

    function Spent(): Budget
      reads this
    {
      Budget(nodes, textBytes)
    }

    method SpendNode() returns (ok: bool)
      modifies this`nodes
      ensures nodes == old(nodes) + 1
      ensures ok <==> nodes <= MAX_NODES
    {
      nodes := nodes + 1;
      ok := nodes <= MAX_NODES;
    }

    method AddText(s: Text) returns (ok: bool)
      modifies this`textBytes
      ensures ok <==> SpendText(old(Spent()), s).Some?
      ensures ok ==> Some(Spent()) == SpendText(old(Spent()), s)
    {
      if !Encodable(s) {
        return false;
      }
      textBytes := textBytes + Utf8Length(s);
      ok := textBytes <= MAX_TEXT_BYTES;
    }

    /** Visits at most 1,001 nodes on any graph, however shared or cyclic. */
    method ValidateValue(v: Value, depth: nat) returns (ok: bool)
      requires Closed(g) && ValueIn(g, v) && nodes <= MAX_NODES
      modifies this
      ensures ok <==> Validated(g, v, depth, old(ancestors), old(Spent())).Some?
      ensures ok ==> Some(Spent()) == Validated(g, v, depth, old(ancestors), old(Spent()))
      ensures ancestors == old(ancestors) && old(nodes) < nodes <= MAX_NODES + 1
      decreases MAX_NODES + 1 - nodes, 0
    {
      ok := SpendNode();
      if !ok || depth > MAX_DEPTH {
        return false;
      }
      match v {
        case Plain(scalar) =>
          if scalar.Str? {
            ok := AddText(scalar.text);
          } else {
            ok := ScalarFine(scalar);
          }
        case Ref(id) =>
          if id in ancestors {
            return false;
          }
          ancestors := ancestors + {id};
          ok := ValidateSlots(g[id].dict, g[id].slots, depth + 1);
          ancestors := ancestors - {id};
      }
    }

    method ValidateSlots(dict: bool, slots: seq<Slot>, depth: nat) returns (ok: bool)
      requires Closed(g) && SlotsIn(g, dict, slots) && nodes <= MAX_NODES
      modifies this
      ensures ok <==> ValidatedAll(g, dict, slots, depth, old(ancestors), old(Spent())).Some?
      ensures ok ==> Some(Spent()) == ValidatedAll(g, dict, slots, depth, old(ancestors), old(Spent()))
      ensures ancestors == old(ancestors) && old(nodes) <= nodes <= MAX_NODES + 1
      decreases MAX_NODES + 1 - nodes, 1
    {
      ghost var was := old(Spent());
      for i := 0 to |slots|
        invariant ancestors == old(ancestors) && old(nodes) <= nodes <= MAX_NODES
        invariant ValidatedAll(g, dict, slots, depth, old(ancestors), was)
               == ValidatedAll(g, dict, slots[i..], depth, ancestors, Spent())
      {
        var slot := slots[i];
        assert SlotClosed(g, dict, slot);
        assert slots[i..][0] == slot && slots[i..][1..] == slots[i + 1..];
        if slot.key.Some? {
          if !slot.key.value.Str? {
            return false;
          }
          ok := AddText(slot.key.value.text);
          if !ok {
            return;
          }
        }
        ok := ValidateValue(slot.value, depth);
        if !ok {
          return;
        }
      }
      ok := true;
    }
  }

  /** Copies validated metadata; nothing below a secret key is looked at. */
  function CopySanitized(g: Graph, v: Value, forbidden: Forbidden, ghost j: Json): (copy: Json)
    requires Closed(g) && ValueIn(g, v) && Represents(g, v, j)
    ensures copy == Redacted(j, forbidden)
    decreases j
  {
    match v
    case Plain(scalar) => Leaf(scalar)
    case Ref(id) => Box(g[id].dict, CopyAll(g, g[id].dict, g[id].slots, forbidden, j.children))
  }

  function CopyAll(g: Graph, dict: bool, slots: seq<Slot>, forbidden: Forbidden,
                   ghost children: Children): (copy: Children)
    requires Closed(g) && SlotsIn(g, dict, slots) && RepresentsAll(g, slots, children)
    ensures copy == RedactedAll(children, forbidden)
    decreases children
  {
    if slots == [] then End
    else
      var name := if slots[0].key.None? then None else Some(slots[0].key.value.text);
      assert SlotClosed(g, dict, slots[0]);
      Child(name,
            if Secret(name, forbidden) then MASK else CopySanitized(g, slots[0].value, forbidden, children.value),
            CopyAll(g, dict, slots[1..], forbidden, children.rest))
  }

  method SanitizeMetadata(g: Graph, id: nat, forbidden: Forbidden, floats: FloatPrinter) returns (r: Option<Json>)
    requires Closed(g) && id in g
    ensures r == Sanitized(g, id, forbidden, floats)
  {
    if !g[id].dict {
      return None;
    }
    var validator := new Validator(g);
    var ok := validator.ValidateValue(Ref(id), 0);
    if !ok {
      return None;
    }
    var copy := CopySanitized(g, Ref(id), forbidden, Unfolded(g, Ref(id), 0, {}, FULL));
    r := if Short(copy, floats) then Some(copy) else None;
  }
}
