/**
 The php7 compilation unit (hphp/php7/unit.h): a unit owns a pseudomain, a
 list of top-level functions and a list of classes; each class owns a list of
 methods. Objects are only ever appended, never removed.

 Heap pointers become positions: a unit is named by an identifier standing for
 its address, a function's defining class by the class's position in its
 unit's class list, and the pointer a `make*` call returns by the position of
 the new element.
 */
module Php7Unit {

  /** Stands for the address of a `Unit`. */
  type UnitId = nat

  const Uint32Modulus: nat := 0x1_0000_0000

  /** A `uint32_t` value. */
  type Uint32 = x: nat | x < Uint32Modulus

  /** Attribute bits of a function or class. */
  type Attr = bv32

  const AttrNone: Attr := 0
  /** The "returns by reference" flag: bit 0, as in HHVM's attribute enum. */
  const AttrReference: Attr := 1

  datatype Option<T> = None | Some(value: T)

  datatype Param = Param(name: string, byRef: bool)

  /** A function: the pseudomain, a top-level function or a method. A null
      `definingClass` is `None`; otherwise it holds the class's position. */
  datatype Function = Function(
    name: string,
    attr: Attr,
    parent: UnitId,
    definingClass: Option<nat>,
    params: seq<Param>)

  datatype Property = Property(name: string, attr: Attr, initializer: string)

  datatype Class = Class(
    parent: UnitId,
    name: string,
    parentName: Option<string>,
    implements: seq<string>,
    traits: seq<string>,
    index: Uint32,
    attr: Attr,
    methods: seq<Function>,
    properties: seq<Property>)

  datatype Unit = Unit(
    id: UnitId,
    name: string,
    pseudomain: Function,
    functions: seq<Function>,
    classes: seq<Class>)

  // ---------------------------------------------------------------------------
  // Functions

  /** `Function::returnsByReference`: a test of the reference bit. That flag
      is the lowest bit of the attribute word, so a function returns by
      reference iff its attribute word is odd. */
  function ReturnsByReference(f: Function): (b: bool)
    ensures b <==> f.attr % 2 == 1
  {
    f.attr & AttrReference != 0
  }

  /** A function as its constructor leaves it. */
  function NewFunction(parent: UnitId, cls: Option<nat>): (f: Function)
    ensures f.parent == parent && f.definingClass == cls
    ensures f.attr == AttrNone && !ReturnsByReference(f)
    ensures f.name == "" && f.params == []
  {
    Function("", AttrNone, parent, cls, [])
  }

  /** Only the reference bit decides `ReturnsByReference`: setting it makes the
      answer true, clearing it makes it false, and other bits never matter. */
  lemma ReturnsByReferenceIsTheBit(f: Function, other: Attr)
    ensures ReturnsByReference(f.(attr := f.attr | AttrReference))
    ensures !ReturnsByReference(f.(attr := f.attr & !AttrReference))
    ensures other & AttrReference == 0 ==>
      ReturnsByReference(f.(attr := f.attr | other)) == ReturnsByReference(f)
  {
    var a := f.attr;
    assert (a | AttrReference) & AttrReference != 0;
    assert (a & !AttrReference) & AttrReference == 0;
    assert other & AttrReference == 0 ==> ((a | other) & AttrReference != 0) == (a & AttrReference != 0);
  }

  // ---------------------------------------------------------------------------
  // The unit invariant: every child points back to its owner

  predicate IsTopLevelOf(f: Function, id: UnitId)
  {
    f.parent == id && f.definingClass == None
  }

  predicate IsMethodOf(f: Function, id: UnitId, pos: nat)
  {
    f.parent == id && f.definingClass == Some(pos)
  }

  /** The class at position `pos` belongs to the unit, carries `pos` (as a
      `uint32_t`) as its index, and its methods point back to it. */
  predicate ClassWellFormed(u: Unit, pos: nat)
    requires pos < |u.classes|
  {
    var c := u.classes[pos];
    && c.parent == u.id
    && c.index == pos % Uint32Modulus
    && forall m :: 0 <= m < |c.methods| ==> IsMethodOf(c.methods[m], u.id, pos)
  }

  predicate Valid(u: Unit)
  {
    && IsTopLevelOf(u.pseudomain, u.id)
    && (forall k :: 0 <= k < |u.functions| ==> IsTopLevelOf(u.functions[k], u.id))
    && (forall pos :: 0 <= pos < |u.classes| ==> ClassWellFormed(u, pos))
  }

  /** Below 2^32 classes, a class's index is its position, so no two classes
      share an index. */
  lemma IndexIsPosition(u: Unit, i: nat, j: nat)
    requires Valid(u) && |u.classes| <= Uint32Modulus
    requires i < |u.classes| && j < |u.classes|
    ensures u.classes[i].index == i
    ensures u.classes[i].index == u.classes[j].index ==> i == j
  {
    assert ClassWellFormed(u, i) && ClassWellFormed(u, j);
  }

  // ---------------------------------------------------------------------------
  // Unit operations

  /** A fresh unit: an owned pseudomain, no functions, no classes. */
  function NewUnit(id: UnitId): (u: Unit)
    ensures Valid(u)
    ensures u.id == id && u.functions == [] && u.classes == []
    ensures u.pseudomain.parent == id && u.pseudomain.definingClass == None
    ensures !ReturnsByReference(u.pseudomain)
  {
    Unit(id, "", NewFunction(id, None), [], [])
  }

  function GetPseudomain(u: Unit): (f: Function)
    requires Valid(u)
    ensures IsTopLevelOf(f, u.id)
  {
    u.pseudomain
  }

  /** The index the next class will get: the class count, cut to 32 bits. */
  function NextClassId(u: Unit): (id: Uint32)
    ensures |u.classes| < Uint32Modulus ==> id == |u.classes|
    ensures (|u.classes| - id) % Uint32Modulus == 0
  {
    |u.classes| % Uint32Modulus
  }

  /** Appends a top-level function; returns the unit and the new function's
      position. */
  function MakeFunction(u: Unit): (r: (Unit, nat))
    ensures var (u', pos) := r;
      && pos == |u.functions| && |u'.functions| == pos + 1
      && u'.functions[..pos] == u.functions
      && IsTopLevelOf(u'.functions[pos], u.id)
      && u'.functions[pos].attr == AttrNone
      && u'.id == u.id && u'.name == u.name
      && u'.pseudomain == u.pseudomain && u'.classes == u.classes
  {
    (u.(functions := u.functions + [NewFunction(u.id, None)]), |u.functions|)
  }

  lemma MakeFunctionPreservesValid(u: Unit)
    requires Valid(u)
    ensures Valid(MakeFunction(u).0)
  {
    var u' := MakeFunction(u).0;
    assert forall pos :: 0 <= pos < |u.classes| ==> ClassWellFormed(u, pos) && u'.classes[pos] == u.classes[pos];
  }

  /** Appends a class whose index is `NextClassId`; returns the unit and the
      new class's position (the last one). */
  function MakeClass(u: Unit): (r: (Unit, nat))
    ensures var (u', pos) := r;
      && pos == |u.classes| && |u'.classes| == pos + 1
      && u'.classes[..pos] == u.classes
      && u'.classes[pos].index == NextClassId(u)
      && u'.classes[pos].parent == u.id
      && u'.classes[pos].methods == [] && u'.classes[pos].properties == []
      && u'.id == u.id && u'.name == u.name
      && u'.pseudomain == u.pseudomain && u'.functions == u.functions
  {
    var c := Class(u.id, "", None, [], [], NextClassId(u), AttrNone, [], []);
    (u.(classes := u.classes + [c]), |u.classes|)
  }

  /** The new class's index is its position, so the index invariant survives. */
  lemma MakeClassPreservesValid(u: Unit)
    requires Valid(u)
    ensures Valid(MakeClass(u).0)
  {
    var u' := MakeClass(u).0;
    forall pos | 0 <= pos < |u'.classes|
      ensures ClassWellFormed(u', pos)
    {
      if pos < |u.classes| {
        assert ClassWellFormed(u, pos);
      }
    }
  }

  /** `Class::makeMethod` on the class at position `cls`: appends a method
      owned by the class's unit and defined by that class; returns the unit and
      the method's position in the class. */
  function MakeMethod(u: Unit, cls: nat): (r: (Unit, nat))
    requires cls < |u.classes|
    ensures var (u', pos) := r;
      && |u'.classes| == |u.classes|
      && pos == |u.classes[cls].methods|
      && |u'.classes[cls].methods| == pos + 1
      && u'.classes[cls].methods[..pos] == u.classes[cls].methods
      && IsMethodOf(u'.classes[cls].methods[pos], u.classes[cls].parent, cls)
      && u'.classes[cls].(methods := u.classes[cls].methods) == u.classes[cls]
      && (forall k :: 0 <= k < |u.classes| && k != cls ==> u'.classes[k] == u.classes[k])
      && u'.id == u.id && u'.name == u.name
      && u'.pseudomain == u.pseudomain && u'.functions == u.functions
  {
    var c := u.classes[cls];
    var m := NewFunction(c.parent, Some(cls));
    (u.(classes := u.classes[cls := c.(methods := c.methods + [m])]), |c.methods|)
  }

  lemma MakeMethodPreservesValid(u: Unit, cls: nat)
    requires Valid(u) && cls < |u.classes|
    ensures Valid(MakeMethod(u, cls).0)
  {
    var u' := MakeMethod(u, cls).0;
    forall pos | 0 <= pos < |u'.classes|
      ensures ClassWellFormed(u', pos)
    {
      assert ClassWellFormed(u, pos);
    }
  }

  // ---------------------------------------------------------------------------
  // Building a unit step by step

  datatype Step = AddFunction | AddClass | AddMethod(cls: nat)

  /** Replays a build script on a unit; a method step naming a class that
      does not exist yet is skipped. */
  function Build(u: Unit, steps: seq<Step>): Unit
    decreases |steps|
  {
    if |steps| == 0 then u
    else
      var next :=
        match steps[0]
        case AddFunction => MakeFunction(u).0
        case AddClass => MakeClass(u).0
        case AddMethod(cls) => if cls < |u.classes| then MakeMethod(u, cls).0 else u;
      Build(next, steps[1..])
  }

  /** Any build script keeps the unit well formed, never shrinks it and never
      touches the pseudomain. */
  lemma {:induction false} BuildPreservesValid(u: Unit, steps: seq<Step>)
    requires Valid(u)
    ensures Valid(Build(u, steps))
    ensures Build(u, steps).pseudomain == u.pseudomain && Build(u, steps).id == u.id
    ensures |u.classes| <= |Build(u, steps).classes| && |u.functions| <= |Build(u, steps).functions|
    decreases |steps|
  {
    if |steps| > 0 {
      var next :=
        match steps[0]
        case AddFunction => MakeFunction(u).0
        case AddClass => MakeClass(u).0
        case AddMethod(cls) => if cls < |u.classes| then MakeMethod(u, cls).0 else u;
      match steps[0] {
        case AddFunction => MakeFunctionPreservesValid(u);
        case AddClass => MakeClassPreservesValid(u);
        case AddMethod(cls) => if cls < |u.classes| { MakeMethodPreservesValid(u, cls); }
      }
      BuildPreservesValid(next, steps[1..]);
    }
  }

  /** From a fresh unit, any build script leaves a unit whose classes carry
      their positions as indices (while there are fewer than 2^32 of them). */
  lemma FreshUnitIndices(id: UnitId, steps: seq<Step>, i: nat)
    requires i < |Build(NewUnit(id), steps).classes| <= Uint32Modulus
    ensures Build(NewUnit(id), steps).classes[i].index == i
    ensures Build(NewUnit(id), steps).classes[i].parent == id
  {
    BuildPreservesValid(NewUnit(id), steps);
    var u := Build(NewUnit(id), steps);
    IndexIsPosition(u, i, i);
    assert ClassWellFormed(u, i);
  }
}
