/**
 The monostate (Borg) of DesignPatterns/codings/creational/singleton/monostate.py.
 Python objects keep their attributes in a dictionary reached through
 `__dict__`; the model makes that indirection explicit. A `World` holds every
 attribute dictionary ever created and, for each `MonoStateSimple` instance,
 the index of the dictionary its `__dict__` points to. The class-level
 `_state` is dictionary 0.
 */
module Monostate {
  import opened Python

  datatype World = World(dicts: seq<Attrs>, instances: seq<nat>)

  /** Index of the class attribute `_state`. */
  const StateDict: nat := 0

  /** `_state = {'x': 10, 'y': 20}` */
  const InitialState: Attrs := map["x" := Int(10), "y" := Int(20)]

  /** The class before any instance exists. */
  const Start := World([InitialState], [])

  /** Every instance points to an existing dictionary. */
  predicate Valid(w: World) {
    |w.dicts| > StateDict &&
    forall i :: 0 <= i < |w.instances| ==> w.instances[i] < |w.dicts|
  }

  /** Every instance's `__dict__` is the shared `_state`. */
  predicate Shared(w: World) {
    Valid(w) && forall i :: 0 <= i < |w.instances| ==> w.instances[i] == StateDict
  }

  /** The dictionary instance `inst` reads and writes. */
  function DictOf(w: World, inst: nat): Attrs
    requires Valid(w) && inst < |w.instances|
  {
    w.dicts[w.instances[inst]]
  }

  /** `inst.name = v`: writes into whatever dictionary the instance's
      `__dict__` currently is. */
  function SetAttr(w: World, inst: nat, name: string, v: Value): (r: World)
    requires Valid(w) && inst < |w.instances|
    ensures Valid(r) && r.instances == w.instances && |r.dicts| == |w.dicts|
    ensures DictOf(r, inst) == DictOf(w, inst)[name := v]
    ensures forall d :: 0 <= d < |w.dicts| && d != w.instances[inst] ==> r.dicts[d] == w.dicts[d]
  {
    var d := w.instances[inst];
    w.(dicts := w.dicts[d := w.dicts[d][name := v]])
  }

  /** `inst.name` */
  function GetAttrOf(w: World, inst: nat, name: string): Result<Value>
    requires Valid(w) && inst < |w.instances|
  {
    GetAttr(DictOf(w, inst), name)
  }

  /** `MonoStateSimple(nome, sobrenome)`: the new instance first gets a fresh
      dictionary of its own, receives `x = 0` and `y = 0` there, then has its
      `__dict__` replaced by `_state`; `nome` and `sobrenome` are stored only
      when truthy. Returns the new world and the new instance. */
  function New(w: World, nome: Value, sobrenome: Value): (r: (World, nat))
    requires Valid(w)
    ensures Valid(r.0)
    ensures r.1 == |w.instances| && |r.0.instances| == |w.instances| + 1
    ensures r.0.instances[..r.1] == w.instances
    ensures r.0.instances[r.1] == StateDict
    ensures |r.0.dicts| == |w.dicts| + 1
    ensures r.0.dicts[|w.dicts|] == map["x" := Int(0), "y" := Int(0)]
    ensures forall d :: 0 <= d < |w.dicts| && d != StateDict ==> r.0.dicts[d] == w.dicts[d]
  {
    var own := |w.dicts|;
    var inst := |w.instances|;
    var w1 := World(w.dicts + [map[]], w.instances + [own]);
    var w2 := SetAttr(SetAttr(w1, inst, "x", Int(0)), inst, "y", Int(0));
    var w3 := w2.(instances := w2.instances[inst := StateDict]);
    var w4 := if Truthy(nome) then SetAttr(w3, inst, "nome", nome) else w3;
    var w5 := if Truthy(sobrenome) then SetAttr(w4, inst, "sobrenome", sobrenome) else w4;
    (w5, inst)
  }

  /** Construction keeps every instance aliased to `_state`. */
  lemma NewKeepsShared(w: World, nome: Value, sobrenome: Value)
    requires Shared(w)
    ensures Shared(New(w, nome, sobrenome).0)
  {
    var r := New(w, nome, sobrenome);
    forall i | 0 <= i < |r.0.instances|
      ensures r.0.instances[i] == StateDict
    {
      if i < |w.instances| {
        assert r.0.instances[i] == r.0.instances[..r.1][i];
      }
    }
  }

  /** What construction does to the shared state: `nome` and `sobrenome` are
      set when truthy and otherwise keep their old presence and value; every
      other attribute, `x` and `y` included, is untouched by the 0-writes. */
  lemma NewSharedEffect(w: World, nome: Value, sobrenome: Value, k: string)
    requires Valid(w)
    ensures var s := New(w, nome, sobrenome).0.dicts[StateDict];
      var before := w.dicts[StateDict];
      && (k == "nome" ==> if Truthy(nome) then k in s && s[k] == nome
                          else (k in s <==> k in before) && (k in before ==> s[k] == before[k]))
      && (k == "sobrenome" ==> if Truthy(sobrenome) then k in s && s[k] == sobrenome
                               else (k in s <==> k in before) && (k in before ==> s[k] == before[k]))
      && (k != "nome" && k != "sobrenome" ==> (k in s <==> k in before) && (k in before ==> s[k] == before[k]))
  {
  }

  /** A write through one instance is read back through every instance. */
  lemma WriteVisibleEverywhere(w: World, i: nat, j: nat, name: string, v: Value)
    requires Shared(w) && i < |w.instances| && j < |w.instances|
    ensures GetAttrOf(SetAttr(w, i, name, v), j, name) == Ok(v)
  {
  }

  /** All instances of a shared world observe the same attributes. */
  lemma InstancesIndistinguishable(w: World, i: nat, j: nat, name: string)
    requires Shared(w) && i < |w.instances| && j < |w.instances|
    ensures GetAttrOf(w, i, name) == GetAttrOf(w, j, name)
  {
  }

  /** The driver: `m1 = MonoStateSimple(nome="Leo")`, `m1.x = 20`,
      `m2 = MonoStateSimple(sobrenome="Fizza Now")`. Both instances then
      show x=20, y=20, nome="Leo", sobrenome="Fizza Now". */
  lemma Driver()
    ensures var (w1, m1) := New(Start, Str("Leo"), NoneValue);
      var w2 := SetAttr(w1, m1, "x", Int(20));
      var (w3, m2) := New(w2, NoneValue, Str("Fizza Now"));
      && GetAttrOf(w3, m2, "x") == Ok(Int(20))
      && GetAttrOf(w3, m1, "y") == Ok(Int(20))
      && GetAttrOf(w3, m2, "nome") == Ok(Str("Leo"))
      && GetAttrOf(w3, m1, "sobrenome") == Ok(Str("Fizza Now"))
      && GetAttrOf(w3, m1, "x") == Ok(Int(20))
      && GetAttrOf(w3, m2, "y") == Ok(Int(20))
      && GetAttrOf(w3, m1, "nome") == Ok(Str("Leo"))
      && GetAttrOf(w3, m2, "sobrenome") == Ok(Str("Fizza Now"))
  {
    var (w1, m1) := New(Start, Str("Leo"), NoneValue);
    NewKeepsShared(Start, Str("Leo"), NoneValue);
    NewSharedEffect(Start, Str("Leo"), NoneValue, "y");
    NewSharedEffect(Start, Str("Leo"), NoneValue, "nome");
    var w2 := SetAttr(w1, m1, "x", Int(20));
    var (w3, m2) := New(w2, NoneValue, Str("Fizza Now"));
    NewKeepsShared(w2, NoneValue, Str("Fizza Now"));
    NewSharedEffect(w2, NoneValue, Str("Fizza Now"), "x");
    NewSharedEffect(w2, NoneValue, Str("Fizza Now"), "y");
    NewSharedEffect(w2, NoneValue, Str("Fizza Now"), "nome");
    NewSharedEffect(w2, NoneValue, Str("Fizza Now"), "sobrenome");
    InstancesIndistinguishable(w3, m1, m2, "x");
    InstancesIndistinguishable(w3, m1, m2, "y");
    InstancesIndistinguishable(w3, m1, m2, "nome");
    InstancesIndistinguishable(w3, m1, m2, "sobrenome");
  }
}
