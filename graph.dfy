/**
 * The node graph of Node.h. Every node lives in the arena of the Node_Context
 * that created it and is addressed by its index there; an edge, an operand or
 * a symbol binding is such an index. A node record carries its kind (value,
 * operation, symbol or lexer), its ordered input and output slots and the
 * context that owns it.
 */
module Graph {
  import opened Outcomes
  import opened Operations
  import DecimalText

  /** The Type_ of Node.h, which only value nodes carry (Type_COUNT is 2). */
  datatype NodeType = NumberType | StringType

  /**
   * What a node is. Node_Number and Node_String are the two value nodes;
   * an operation refers to its left input, right input and output value
   * nodes, a symbol to the value it names, a lexer to its expression text.
   */
  datatype NodeKind =
    | NumberNode(number: real)
    | StringNode(text: string)
    | OperationNode(op: Operator, left: nat, right: nat, output: nat)
    | SymbolNode(name: string, value: nat)
    | LexerNode(expression: nat)

  /** A node: its kind, its input and output slots (None is a null slot) and its owner. */
  datatype NodeRec = NodeRec(kind: NodeKind, inputs: seq<Option<nat>>, outputs: seq<Option<nat>>, owner: Context)

  /** Node_Value: the nodes that carry a type. */
  predicate IsValue(n: NodeRec) {
    n.kind.NumberNode? || n.kind.StringNode?
  }

  /** getType of a value node: fixed by the kind the node was built as. */
  function TypeOf(n: NodeRec): (t: NodeType)
    requires IsValue(n)
    ensures t == NumberType <==> n.kind.NumberNode?
    ensures t == StringType <==> n.kind.StringNode?
  {
    if n.kind.NumberNode? then NumberType else StringType
  }

  predicate IsType(n: NodeRec, t: NodeType)
    requires IsValue(n)
  {
    TypeOf(n) == t
  }

  /** The node held in slot `id`; a slot past the end reads as null. */
  function SlotAt(slots: seq<Option<nat>>, id: nat): Option<nat> {
    if id < |slots| then slots[id] else None
  }

  /**
   * The slots after `n` is stored in slot `id`: that slot holds `n`, every
   * other slot is as before, and slots missing below `id` are added as null.
   */
  function WithSlot(slots: seq<Option<nat>>, id: nat, n: nat): (r: seq<Option<nat>>)
    ensures |r| == if id < |slots| then |slots| else id + 1
    ensures SlotAt(r, id) == Some(n)
    ensures forall j :: j != id ==> SlotAt(r, j) == SlotAt(slots, j)
  {
    if id < |slots| then slots[id := Some(n)]
    else slots + seq(id - |slots|, _ => None) + [Some(n)]
  }

  /** Every slot that is not null refers to one of the first `size` nodes. */
  predicate SlotsWithin(slots: seq<Option<nat>>, size: nat) {
    forall j :: 0 <= j < |slots| && slots[j].Some? ==> slots[j].value < size
  }

  /** The references a kind carries point into `nodes`, at nodes of the kind the source declares. */
  predicate KindLinked(k: NodeKind, nodes: seq<NodeRec>) {
    match k
    case OperationNode(_, l, r, o) =>
      && l < |nodes| && r < |nodes| && o < |nodes|
      && IsValue(nodes[l]) && IsValue(nodes[r]) && IsValue(nodes[o])
    case SymbolNode(_, v) => v < |nodes| && IsValue(nodes[v])
    case LexerNode(e) => e < |nodes| && nodes[e].kind.StringNode?
    case _ => true
  }

  predicate NodeLinked(n: NodeRec, nodes: seq<NodeRec>) {
    KindLinked(n.kind, nodes) && SlotsWithin(n.inputs, |nodes|) && SlotsWithin(n.outputs, |nodes|)
  }

  /** No reference in the arena dangles. */
  predicate Linked(nodes: seq<NodeRec>) {
    forall k :: 0 <= k < |nodes| ==> NodeLinked(nodes[k], nodes)
  }

  /** `symbols` lists symbol nodes of the arena, each once, in creation order. */
  predicate SymbolIndex(nodes: seq<NodeRec>, symbols: seq<nat>) {
    && (forall j :: 0 <= j < |symbols| ==> symbols[j] < |nodes| && nodes[symbols[j]].kind.SymbolNode?)
    && (forall i, j :: 0 <= i < j < |symbols| ==> symbols[i] < symbols[j])
  }

  /**
   * What may happen to a node while the graph is evaluated: nothing, or a
   * new number in a number node.
   */
  predicate Evolves(a: NodeRec, b: NodeRec) {
    b == a || (a.kind.NumberNode? && b.kind.NumberNode? && b == a.(kind := NumberNode(b.kind.number)))
  }

  /** The arena `b` extends the arena `a`: nodes are appended, and earlier ones only evolve. */
  predicate Grows(a: seq<NodeRec>, b: seq<NodeRec>) {
    |a| <= |b| && forall k :: 0 <= k < |a| ==> Evolves(a[k], b[k])
  }

  /** The arena with a new number in the number node `k`. */
  function SetNumber(nodes: seq<NodeRec>, k: nat, v: real): (r: seq<NodeRec>)
    requires k < |nodes| && nodes[k].kind.NumberNode?
    ensures Grows(nodes, r) && |r| == |nodes|
    ensures r[k].kind == NumberNode(v)
  {
    nodes[k := nodes[k].(kind := NumberNode(v))]
  }

  /**
   * Types never change: a value node keeps the type it was constructed
   * with, however the arena grows.
   */
  lemma {:induction false} TypeIsFixed(a: seq<NodeRec>, b: seq<NodeRec>, k: nat)
    requires Grows(a, b) && k < |a| && IsValue(a[k])
    ensures IsValue(b[k]) && TypeOf(b[k]) == TypeOf(a[k])
    ensures forall t: NodeType :: IsType(b[k], t) <==> TypeOf(a[k]) == t
  {
    assert Evolves(a[k], b[k]);
  }

  /** Growth composes. */
  lemma GrowsTransitive(a: seq<NodeRec>, b: seq<NodeRec>, c: seq<NodeRec>)
    requires Grows(a, b) && Grows(b, c)
    ensures Grows(a, c)
  {
    forall k | 0 <= k < |a|
      ensures Evolves(a[k], c[k])
    {
      assert Evolves(a[k], b[k]) && Evolves(b[k], c[k]);
    }
  }

  /** `b` grows from `a` and, of the nodes of `a`, only node `k` may differ. */
  predicate OnlyChanges(a: seq<NodeRec>, b: seq<NodeRec>, k: nat) {
    Grows(a, b) && forall j :: 0 <= j < |a| && j != k ==> b[j] == a[j]
  }

  /** Changes compose, including a change to a node appended after `a`. */
  lemma OnlyChangesTransitive(a: seq<NodeRec>, b: seq<NodeRec>, c: seq<NodeRec>, k: nat, m: nat)
    requires OnlyChanges(a, b, k) && OnlyChanges(b, c, m) && (m == k || m >= |a|)
    ensures OnlyChanges(a, c, k)
  {
    GrowsTransitive(a, b, c);
  }

  /** A growing arena keeps every link of a linked one. */
  lemma LinkedGrows(a: seq<NodeRec>, b: seq<NodeRec>, n: NodeRec)
    requires Grows(a, b) && NodeLinked(n, a)
    ensures NodeLinked(n, b)
  {
    match n.kind
    case OperationNode(_, l, r, o) =>
      assert Evolves(a[l], b[l]) && Evolves(a[r], b[r]) && Evolves(a[o], b[o]);
    case SymbolNode(_, v) =>
      assert Evolves(a[v], b[v]);
    case LexerNode(e) =>
      assert Evolves(a[e], b[e]);
    case _ =>
  }

  /** Appending a node whose links are sound keeps the arena linked. */
  lemma LinkedAppend(nodes: seq<NodeRec>, n: NodeRec)
    requires Linked(nodes) && NodeLinked(n, nodes + [n])
    ensures Linked(nodes + [n])
  {
    var b := nodes + [n];
    assert Grows(nodes, b) by {
      forall k | 0 <= k < |nodes| ensures Evolves(nodes[k], b[k]) {
        assert b[k] == nodes[k];
      }
    }
    forall k | 0 <= k < |b|
      ensures NodeLinked(b[k], b)
    {
      if k < |nodes| {
        assert b[k] == nodes[k];
        LinkedGrows(nodes, b, nodes[k]);
      }
    }
  }

  /** A new number in a number node keeps the arena linked. */
  lemma LinkedSetNumber(nodes: seq<NodeRec>, k: nat, v: real)
    requires Linked(nodes) && k < |nodes| && nodes[k].kind.NumberNode?
    ensures Linked(SetNumber(nodes, k, v))
  {
    var b := SetNumber(nodes, k, v);
    forall j | 0 <= j < |b|
      ensures NodeLinked(b[j], b)
    {
      LinkedGrows(nodes, b, nodes[j]);
    }
  }

  /** The symbol node `k` is named `name`. */
  predicate NamedAt(nodes: seq<NodeRec>, k: nat, name: string) {
    k < |nodes| && nodes[k].kind.SymbolNode? && nodes[k].kind.name == name
  }

  /**
   * The symbol `find` answers with: the most recently created symbol of
   * that name, or null when the context holds none.
   */
  function LastNamed(nodes: seq<NodeRec>, symbols: seq<nat>, name: string): (r: Option<nat>)
    ensures r.Some? ==> NamedAt(nodes, r.value, name)
    ensures r.Some? ==> exists j :: 0 <= j < |symbols| && symbols[j] == r.value &&
                          forall i :: j < i < |symbols| ==> !NamedAt(nodes, symbols[i], name)
    ensures r.None? <==> forall j :: 0 <= j < |symbols| ==> !NamedAt(nodes, symbols[j], name)
  {
    if symbols == [] then None
    else
      var last := symbols[|symbols| - 1];
      if NamedAt(nodes, last, name) then Some(last)
      else
        var r := LastNamed(nodes, symbols[..|symbols| - 1], name);
        assert forall j :: 0 <= j < |symbols| - 1 ==> symbols[..|symbols| - 1][j] == symbols[j];
        r
  }

  /** A symbol just created is what `find` returns for its name. */
  lemma FindsNewest(nodes: seq<NodeRec>, symbols: seq<nat>, id: nat, name: string)
    requires NamedAt(nodes, id, name)
    ensures LastNamed(nodes, symbols + [id], name) == Some(id)
  {
  }

  /** A symbol of another name leaves the answer of `find` as it was. */
  lemma {:induction false} FindSkipsOthers(nodes: seq<NodeRec>, symbols: seq<nat>, id: nat, name: string)
    requires !NamedAt(nodes, id, name)
    ensures LastNamed(nodes, symbols + [id], name) == LastNamed(nodes, symbols, name)
  {
    assert (symbols + [id])[..|symbols|] == symbols;
  }

  /** Evaluation changes numbers only, so it never changes what `find` answers. */
  lemma {:induction false} FindStable(a: seq<NodeRec>, b: seq<NodeRec>, symbols: seq<nat>, name: string)
    requires Grows(a, b) && SymbolIndex(a, symbols)
    ensures LastNamed(a, symbols, name) == LastNamed(b, symbols, name)
    decreases |symbols|
  {
    if symbols != [] {
      var last := symbols[|symbols| - 1];
      assert Evolves(a[last], b[last]);
      var front := symbols[..|symbols| - 1];
      assert SymbolIndex(a, front);
      FindStable(a, b, front, name);
    }
  }

  /**
   * Node_Context: a name, the arena of every node it created and the symbol
   * table of the symbol nodes among them.
   */
  class Context {
    const name: string
    var nodes: seq<NodeRec>
    var symbols: seq<nat>

    ghost predicate Valid()
      reads this
    {
      && (forall k :: 0 <= k < |nodes| ==> nodes[k].owner == this)
      && Linked(nodes)
      && SymbolIndex(nodes, symbols)
    }

    /** A new, empty context. */
    constructor (n: string)
      ensures Valid() && name == n && nodes == [] && symbols == []
    {
      name := n;
      nodes := [];
      symbols := [];
    }

    function GetName(): string
      reads this
    {
      name
    }

    /**
     * addNode: the node takes this context as its owner and is appended to
     * the arena; the nodes already there are unchanged.
     */
    method AddNode(kind: NodeKind) returns (id: nat)
      requires Valid() && KindLinked(kind, nodes)
      modifies this
      ensures Valid()
      ensures id == |old(nodes)| && nodes == old(nodes) + [NodeRec(kind, [], [], this)]
      ensures symbols == old(symbols)
    {
      var n := NodeRec(kind, [], [], this);
      assert KindLinked(kind, nodes + [n]) by {
        LinkedGrows(nodes, nodes + [n], NodeRec(kind, [], [], this));
      }
      LinkedAppend(nodes, n);
      assert SymbolIndex(nodes + [n], symbols);
      id := |nodes|;
      nodes := nodes + [n];
    }

    /** createNodeNumber(int): the integer is stored as a number. */
    method CreateNodeNumber(value: int) returns (id: nat)
      requires Valid()
      modifies this
      ensures Valid() && symbols == old(symbols)
      ensures id == |old(nodes)| && nodes == old(nodes) + [NodeRec(NumberNode(value as real), [], [], this)]
    {
      id := AddNode(NumberNode(value as real));
    }

    /** createNodeNumber(const char*): the text is read as a decimal number. */
    method CreateNodeNumberFromText(text: string) returns (id: nat)
      requires Valid()
      modifies this
      ensures Valid() && symbols == old(symbols)
      ensures id == |old(nodes)|
      ensures nodes == old(nodes) + [NodeRec(NumberNode(DecimalText.ReadDecimal(text)), [], [], this)]
    {
      id := AddNode(NumberNode(DecimalText.ReadDecimal(text)));
    }

    /** createNodeString: the text defaults to the empty string, as Node_String's does. */
    method CreateNodeString(text: string := "") returns (id: nat)
      requires Valid()
      modifies this
      ensures Valid() && symbols == old(symbols)
      ensures id == |old(nodes)| && nodes == old(nodes) + [NodeRec(StringNode(text), [], [], this)]
    {
      id := AddNode(StringNode(text));
    }

    /**
     * createNodeSymbol: the symbol naming the value node `value` is appended
     * to the arena and to the symbol table, and `find` now answers with it.
     */
    method CreateNodeSymbol(symbolName: string, value: nat) returns (id: nat)
      requires Valid() && value < |nodes| && IsValue(nodes[value])
      modifies this
      ensures Valid()
      ensures id == |old(nodes)| && nodes == old(nodes) + [NodeRec(SymbolNode(symbolName, value), [], [], this)]
      ensures symbols == old(symbols) + [id]
      ensures LastNamed(nodes, symbols, symbolName) == Some(id)
    {
      id := AddNode(SymbolNode(symbolName, value));
      assert SymbolIndex(nodes, symbols + [id]) by {
        forall j | 0 <= j < |symbols| ensures symbols[j] < id {
          assert symbols[j] < |old(nodes)|;
        }
      }
      symbols := symbols + [id];
      FindsNewest(nodes, old(symbols), id, symbolName);
    }

    /**
     * The operation nodes of Node.h, one constructor per operator:
     * createNodeAdd, createNodeSubstract, createNodeMultiply,
     * createNodeDivide and createNodeAssign.
     */
    method CreateNodeOperation(op: Operator, left: nat, right: nat, output: nat) returns (id: nat)
      requires Valid() && KindLinked(OperationNode(op, left, right, output), nodes)
      modifies this
      ensures Valid() && symbols == old(symbols)
      ensures id == |old(nodes)| && nodes == old(nodes) + [NodeRec(OperationNode(op, left, right, output), [], [], this)]
    {
      id := AddNode(OperationNode(op, left, right, output));
    }

    /**
     * createNodeBinaryOperation: the operator character selects the
     * operation; a character outside + - * / = is refused and the arena is
     * left as it was.
     */
    method CreateNodeBinaryOperation(c: char, left: nat, right: nat, output: nat) returns (r: Result<nat>)
      requires Valid()
      requires left < |nodes| && right < |nodes| && output < |nodes|
      requires IsValue(nodes[left]) && IsValue(nodes[right]) && IsValue(nodes[output])
      modifies this
      ensures Valid() && symbols == old(symbols)
      ensures r.Err? <==> c !in "+-*/="
      ensures r.Err? ==> r.error == UnsupportedOperator && nodes == old(nodes)
      ensures r.Ok? ==> r.value == |old(nodes)|
      ensures r.Ok? ==>
                nodes == old(nodes) + [NodeRec(OperationNode(OperatorOf(c).value, left, right, output), [], [], this)]
    {
      match OperatorOf(c)
      case None =>
        r := Err(UnsupportedOperator);
      case Some(op) =>
        var id := CreateNodeOperation(op, left, right, output);
        r := Ok(id);
    }

    /** createNodeLexer: a lexer over the text node `expression`. */
    method CreateNodeLexer(expression: nat) returns (id: nat)
      requires Valid() && expression < |nodes| && nodes[expression].kind.StringNode?
      modifies this
      ensures Valid() && symbols == old(symbols)
      ensures id == |old(nodes)| && nodes == old(nodes) + [NodeRec(LexerNode(expression), [], [], this)]
    {
      id := AddNode(LexerNode(expression));
    }

    /** find: the newest symbol of that name, or null. */
    method Find(symbolName: string) returns (r: Option<nat>)
      ensures r == LastNamed(nodes, symbols, symbolName)
    {
      r := None;
      var i := 0;
      while i < |symbols|
        invariant 0 <= i <= |symbols|
        invariant r == LastNamed(nodes, symbols[..i], symbolName)
      {
        if NamedAt(nodes, symbols[i], symbolName) {
          r := Some(symbols[i]);
        }
        assert symbols[..i + 1][..i] == symbols[..i];
        i := i + 1;
      }
      assert symbols[..i] == symbols;
    }

    /** getInput: the node in input slot `slot` of node `id`, null when there is none. */
    function GetInput(id: nat, slot: nat := 0): (r: Option<nat>)
      requires id < |nodes|
      reads this
      ensures slot >= |nodes[id].inputs| ==> r == None
      ensures Valid() && r.Some? ==> r.value < |nodes|
    {
      assert Valid() ==> NodeLinked(nodes[id], nodes);
      SlotAt(nodes[id].inputs, slot)
    }

    function GetOutput(id: nat, slot: nat := 0): (r: Option<nat>)
      requires id < |nodes|
      reads this
      ensures slot >= |nodes[id].outputs| ==> r == None
      ensures Valid() && r.Some? ==> r.value < |nodes|
    {
      assert Valid() ==> NodeLinked(nodes[id], nodes);
      SlotAt(nodes[id].outputs, slot)
    }

    /**
     * setInput: input slot `slot` of node `id` refers to `target` from now
     * on; no other slot and no other node changes.
     */
    method SetInput(id: nat, target: nat, slot: nat := 0)
      requires Valid() && id < |nodes| && target < |nodes|
      modifies this
      ensures Valid() && symbols == old(symbols)
      ensures nodes == old(nodes)[id := old(nodes)[id].(inputs := WithSlot(old(nodes)[id].inputs, slot, target))]
      ensures GetInput(id, slot) == Some(target)
      ensures forall j :: j != slot ==> GetInput(id, j) == old(GetInput(id, j))
    {
      var n := nodes[id].(inputs := WithSlot(nodes[id].inputs, slot, target));
      Relink(id, n);
    }

    /** setOutput: as setInput, on the output slots. */
    method SetOutput(id: nat, target: nat, slot: nat := 0)
      requires Valid() && id < |nodes| && target < |nodes|
      modifies this
      ensures Valid() && symbols == old(symbols)
      ensures nodes == old(nodes)[id := old(nodes)[id].(outputs := WithSlot(old(nodes)[id].outputs, slot, target))]
      ensures GetOutput(id, slot) == Some(target)
      ensures forall j :: j != slot ==> GetOutput(id, j) == old(GetOutput(id, j))
    {
      var n := nodes[id].(outputs := WithSlot(nodes[id].outputs, slot, target));
      Relink(id, n);
    }

    /** Replaces node `id` by `n`, which has the same kind and owner and sound slots. */
    method Relink(id: nat, n: NodeRec)
      requires Valid() && id < |nodes|
      requires n.kind == nodes[id].kind && n.owner == this
      requires SlotsWithin(n.inputs, |nodes|) && SlotsWithin(n.outputs, |nodes|)
      modifies this
      ensures Valid() && symbols == old(symbols) && nodes == old(nodes)[id := n]
    {
      var b := nodes[id := n];
      forall k | 0 <= k < |b|
        ensures NodeLinked(b[k], b)
      {
        assert NodeLinked(nodes[k], nodes);
        assert forall j :: 0 <= j < |nodes| ==> IsValue(b[j]) == IsValue(nodes[j]);
      }
      nodes := b;
    }

    /** getContext: the context that owns node `id`. */
    function GetContext(id: nat): (c: Context)
      requires id < |nodes|
      reads this
      ensures Valid() ==> c == this
    {
      nodes[id].owner
    }

    /** Every node of the arena belongs to this context and to no other. */
    lemma OwnsEveryNode(id: nat)
      requires Valid() && id < |nodes|
      ensures GetContext(id) == this
    {
    }

    /** Node_Value::asNumber: the node itself when it is a number, null otherwise. */
    function AsNumber(id: nat): (r: Option<nat>)
      requires id < |nodes| && IsValue(nodes[id])
      reads this
      ensures r.Some? <==> IsType(nodes[id], NumberType)
      ensures r.Some? ==> r.value == id
    {
      if nodes[id].kind.NumberNode? then Some(id) else None
    }

    /** Node_Value::asString: the node itself when it is a text, null otherwise. */
    function AsString(id: nat): (r: Option<nat>)
      requires id < |nodes| && IsValue(nodes[id])
      reads this
      ensures r.Some? <==> IsType(nodes[id], StringType)
      ensures r.Some? ==> r.value == id
    {
      if nodes[id].kind.StringNode? then Some(id) else None
    }

    /** Node_Symbol::getValue: the value node a symbol names, which belongs to this context. */
    function SymbolValue(id: nat): (v: nat)
      requires Valid() && id < |nodes| && nodes[id].kind.SymbolNode?
      reads this
      ensures v < |nodes| && IsValue(nodes[v]) && GetContext(v) == this
    {
      assert NodeLinked(nodes[id], nodes);
      nodes[id].kind.value
    }

    /** Node_Symbol::getName: the name `find` looks the symbol up by. */
    function SymbolName(id: nat): (n: string)
      requires id < |nodes| && nodes[id].kind.SymbolNode?
      reads this
      ensures NamedAt(nodes, id, n)
    {
      nodes[id].kind.name
    }

    /** Node_Number::getValue. */
    function NumberOf(id: nat): real
      requires id < |nodes| && nodes[id].kind.NumberNode?
      reads this
    {
      nodes[id].kind.number
    }

    /** Node_String::getValue. */
    function TextOf(id: nat): string
      requires id < |nodes| && nodes[id].kind.StringNode?
      reads this
    {
      nodes[id].kind.text
    }

    /** Node_Number::setValue: the number changes, the type and every other node do not. */
    method SetNumberValue(id: nat, v: real)
      requires Valid() && id < |nodes| && nodes[id].kind.NumberNode?
      modifies this
      ensures Valid() && symbols == old(symbols)
      ensures nodes == SetNumber(old(nodes), id, v) && NumberOf(id) == v
    {
      LinkedSetNumber(nodes, id, v);
      nodes := SetNumber(nodes, id, v);
    }

    /** Node_String::setValue: the text changes, the type and every other node do not. */
    method SetTextValue(id: nat, s: string)
      requires Valid() && id < |nodes| && nodes[id].kind.StringNode?
      modifies this
      ensures Valid() && symbols == old(symbols)
      ensures nodes == old(nodes)[id := old(nodes)[id].(kind := StringNode(s))] && TextOf(id) == s
    {
      var b := nodes[id := nodes[id].(kind := StringNode(s))];
      forall k | 0 <= k < |b|
        ensures NodeLinked(b[k], b)
      {
        assert NodeLinked(nodes[k], nodes);
        assert forall j :: 0 <= j < |nodes| ==> IsValue(b[j]) == IsValue(nodes[j]);
        assert forall j :: 0 <= j < |nodes| ==> b[j].kind.StringNode? == nodes[j].kind.StringNode?;
      }
      nodes := b;
    }

    /**
     * evaluate of an operation node: the numbers of its left and right
     * inputs combined by its operator, written into its output; an
     * assignment writes into its left input instead. An input or output that is not
     * a number is a type mismatch; a failed operation writes nothing.
     */
    method EvaluateOperation(id: nat) returns (r: Result<real>)
      requires Valid() && id < |nodes| && nodes[id].kind.OperationNode?
      modifies this
      ensures Valid() && symbols == old(symbols) && Grows(old(nodes), nodes) && |nodes| == |old(nodes)|
      ensures r == OperationResult(old(nodes), id)
      ensures r.Err? ==> nodes == old(nodes)
      ensures r.Ok? ==> var o := old(nodes)[id].kind;
                nodes == SetNumber(old(nodes), if o.op == Assign then o.left else o.output, r.value)
    {
      r := OperationResult(nodes, id);
      if r.Ok? {
        var o := nodes[id].kind;
        if o.op == Assign {
          SetNumberValue(o.left, r.value);
        } else {
          SetNumberValue(o.output, r.value);
        }
      }
    }
  }

  /**
   * The result of evaluating operation node `id` of `nodes`: its operator
   * applied to the numbers of its inputs, when inputs and output are
   * numbers.
   */
  function OperationResult(nodes: seq<NodeRec>, id: nat): (r: Result<real>)
    requires Linked(nodes) && id < |nodes| && nodes[id].kind.OperationNode?
    ensures r.Ok? ==> nodes[nodes[id].kind.left].kind.NumberNode? && nodes[nodes[id].kind.right].kind.NumberNode?
    ensures r.Ok? ==> nodes[nodes[id].kind.output].kind.NumberNode?
    ensures r == Err(TypeMismatch) <==> !nodes[nodes[id].kind.left].kind.NumberNode? ||
                                         !nodes[nodes[id].kind.right].kind.NumberNode? ||
                                         !nodes[nodes[id].kind.output].kind.NumberNode?
    ensures r == Err(DivisionByZero) <==> nodes[id].kind.op == Divide && r != Err(TypeMismatch) &&
                                          nodes[nodes[id].kind.right].kind.number == 0.0
    ensures r.Ok? ==> r == Apply(nodes[id].kind.op, nodes[nodes[id].kind.left].kind.number,
                                 nodes[nodes[id].kind.right].kind.number)
  {
    assert NodeLinked(nodes[id], nodes);
    var o := nodes[id].kind;
    if nodes[o.left].kind.NumberNode? && nodes[o.right].kind.NumberNode? && nodes[o.output].kind.NumberNode? then
      Apply(o.op, nodes[o.left].kind.number, nodes[o.right].kind.number)
    else
      Err(TypeMismatch)
  }
}
