/** JSON values as the audit log stores them: their size, their text and how they are written. */
module Json {
  import opened Common

  /** Text as code points; a lone surrogate is possible and has no UTF-8 form. */
  type CodePoint = c: int | 0 <= c < 0x110000

  type Text = seq<CodePoint>

  /** A float without a value is not finite; Other is anything that is not JSON. */
  datatype Scalar = Null | Truth(b: bool) | Str(text: Text) | Int(i: int) | Float(value: Option<real>) | Other

  /** A list or an object; a child of an object has a name, a child of a list has none. */
  datatype Json = Leaf(scalar: Scalar) | Box(dict: bool, children: Children)

  datatype Children = End | Child(name: Option<Text>, value: Json, rest: Children)

  // ----- measures -----

  predicate Surrogate(c: CodePoint) {
    0xD800 <= c < 0xE000
  }

  predicate Encodable(s: Text) {
    forall c :: c in s ==> !Surrogate(c)
  }

  function Width(c: CodePoint): nat {
    if c < 0x80 then 1 else if c < 0x800 then 2 else if c < 0x1_0000 then 3 else 4
  }

  /** Length in bytes of the UTF-8 encoding. */
  function Utf8Length(s: Text): nat {
    if s == [] then 0 else Width(s[0]) + Utf8Length(s[1..])
  }

  function Nodes(j: Json): nat
    decreases j
  {
    match j
    case Leaf(_) => 1
    case Box(_, children) => 1 + NodesOf(children)
  }

  function NodesOf(children: Children): nat
    decreases children
  {
    match children
    case End => 0
    case Child(_, value, rest) => Nodes(value) + NodesOf(rest)
  }

  /** How many levels of containers lie above the deepest value. */
  function Height(j: Json): nat
    decreases j
  {
    match j
    case Leaf(_) => 0
    case Box(_, children) => if children.End? then 0 else 1 + HeightOf(children)
  }

  function HeightOf(children: Children): nat
    decreases children
  {
    match children
    case End => 0
    case Child(_, value, rest) => if Height(value) > HeightOf(rest) then Height(value) else HeightOf(rest)
  }

  function TextBytes(j: Json): nat
    decreases j
  {
    match j
    case Leaf(scalar) => if scalar.Str? then Utf8Length(scalar.text) else 0
    case Box(_, children) => TextBytesOf(children)
  }

  function NameBytes(name: Option<Text>): nat {
    if name.Some? then Utf8Length(name.value) else 0
  }

  function TextBytesOf(children: Children): nat
    decreases children
  {
    match children
    case End => 0
    case Child(name, value, rest) => NameBytes(name) + TextBytes(value) + TextBytesOf(rest)
  }

  const MAX_JSON_INTEGER := 9_007_199_254_740_991

  predicate ScalarFine(scalar: Scalar) {
    match scalar
    case Null => true
    case Truth(_) => true
    case Str(text) => Encodable(text)
    case Int(i) => -MAX_JSON_INTEGER <= i <= MAX_JSON_INTEGER
    case Float(value) => value.Some?
    case Other => false
  }

  /** JSON scalars only, in range, with text that can be encoded. */
  predicate Fine(j: Json)
    decreases j
  {
    match j
    case Leaf(scalar) => ScalarFine(scalar)
    case Box(_, children) => FineAll(children)
  }

  predicate FineAll(children: Children)
    decreases children
  {
    match children
    case End => true
    case Child(name, value, rest) => (name.Some? ==> Encodable(name.value)) && Fine(value) && FineAll(rest)
  }

  // ----- the compact printer -----

  const QUOTE: CodePoint := 0x22
  const BACKSLASH: CodePoint := 0x5C

  function Hex(n: nat): CodePoint
    requires n < 16
  {
    if n < 10 then 0x30 + n else 0x57 + n
  }

  function Escaped(c: CodePoint): Text {
    if c == QUOTE || c == BACKSLASH then [BACKSLASH, c]
    else if c == 0x0A then [BACKSLASH, 0x6E]
    else if c == 0x0D then [BACKSLASH, 0x72]
    else if c == 0x09 then [BACKSLASH, 0x74]
    else if c == 0x0C then [BACKSLASH, 0x66]
    else if c == 0x08 then [BACKSLASH, 0x62]
    else if c < 0x20 then [BACKSLASH, 0x75, 0x30, 0x30, Hex(c / 16), Hex(c % 16)]
    else [c]
  }

  function EscapedAll(s: Text): Text {
    if s == [] then [] else Escaped(s[0]) + EscapedAll(s[1..])
  }

  function Quoted(s: Text): Text {
    [QUOTE] + EscapedAll(s) + [QUOTE]
  }

  function Digits(n: nat): Text {
    if n < 10 then [0x30 + n] else Digits(n / 10) + [0x30 + n % 10]
  }

  /** How the platform writes a float is left open. */
  type FloatPrinter = real -> Text

  function PrintedScalar(scalar: Scalar, floats: FloatPrinter): Text {
    match scalar
    case Null => [0x6E, 0x75, 0x6C, 0x6C]
    case Truth(b) => if b then [0x74, 0x72, 0x75, 0x65] else [0x66, 0x61, 0x6C, 0x73, 0x65]
    case Str(text) => Quoted(text)
    case Int(i) => if i < 0 then [0x2D] + Digits(-i) else Digits(i)
    case Float(value) => if value.Some? then floats(value.value) else []
    case Other => []
  }

  function Printed(j: Json, floats: FloatPrinter): Text
    decreases j
  {
    match j
    case Leaf(scalar) => PrintedScalar(scalar, floats)
    case Box(dict, children) =>
      [if dict then 0x7B else 0x5B] + PrintedAll(children, floats) + [if dict then 0x7D else 0x5D]
  }

  function PrintedName(name: Option<Text>): Text {
    if name.Some? then Quoted(name.value) + [0x3A] else []
  }

  function PrintedAll(children: Children, floats: FloatPrinter): Text
    decreases children
  {
    match children
    case End => []
    case Child(name, value, rest) =>
      PrintedName(name) + Printed(value, floats) + (if rest.End? then [] else [0x2C] + PrintedAll(rest, floats))
  }

  lemma {:induction false} LengthAppend(s: Text, t: Text)
    ensures Utf8Length(s + t) == Utf8Length(s) + Utf8Length(t)
  {
    if s == [] {
      assert s + t == t;
    } else {
      LengthAppend(s[1..], t);
      assert (s + t)[1..] == s[1..] + t;
    }
  }

  /** Escaping never shortens. */
  lemma {:induction false} EscapingGrows(s: Text)
    ensures Utf8Length(EscapedAll(s)) >= Utf8Length(s)
  {
    if s != [] {
      EscapingGrows(s[1..]);
      LengthAppend(Escaped(s[0]), EscapedAll(s[1..]));
      assert Utf8Length(Escaped(s[0])) >= Width(Escaped(s[0])[0]);
    }
  }

  lemma QuotingGrows(s: Text)
    ensures Utf8Length(Quoted(s)) >= Utf8Length(s)
  {
    EscapingGrows(s);
    LengthAppend([QUOTE] + EscapedAll(s), [QUOTE]);
    LengthAppend([QUOTE], EscapedAll(s));
  }

  /** The written form is at least as long as all the text in it. */
  lemma {:induction false} PrintingBoundsText(j: Json, floats: FloatPrinter)
    ensures TextBytes(j) <= Utf8Length(Printed(j, floats))
    decreases j
  {
    match j
    case Leaf(scalar) =>
      if scalar.Str? {
        QuotingGrows(scalar.text);
      }
    case Box(dict, children) =>
      PrintingBoundsTextOf(children, floats);
      var body := PrintedAll(children, floats);
      LengthAppend([if dict then 0x7B else 0x5B] + body, [if dict then 0x7D else 0x5D]);
      LengthAppend([if dict then 0x7B else 0x5B], body);
  }

  lemma {:induction false} PrintingBoundsTextOf(children: Children, floats: FloatPrinter)
    ensures TextBytesOf(children) <= Utf8Length(PrintedAll(children, floats))
    decreases children
  {
    match children
    case End =>
    case Child(name, value, rest) =>
      PrintingBoundsText(value, floats);
      PrintingBoundsTextOf(rest, floats);
      if name.Some? {
        QuotingGrows(name.value);
        LengthAppend(Quoted(name.value), [0x3A]);
      }
      var head := PrintedName(name) + Printed(value, floats);
      LengthAppend(PrintedName(name), Printed(value, floats));
      if rest.Child? {
        LengthAppend(head, [0x2C] + PrintedAll(rest, floats));
        LengthAppend([0x2C], PrintedAll(rest, floats));
      } else {
        assert head + [] == head;
      }
  }
}
