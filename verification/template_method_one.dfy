/**
 Template method with one hook (behavioral/template_method/template_method1.py).
 `template_method` is fixed: hook, operation1, base_class_method, operation2.
 A subclass is the configuration it plugs into that routine: the lines its
 hook prints (if it overrides the hook) and the lines its two mandatory
 operations print, any number each. Printed lines become a trace of events,
 each tagged with the step that printed it.
 */
module TemplateMethodOne {
  import opened Python
  import opened Trace

  datatype Step = Hook | Operation1 | BaseClassMethod | Operation2

  /** A concrete subclass of `Abstract`: what its hook override, if any,
      and its two operations print. */
  datatype Subclass = Subclass(hookOverride: Option<seq<string>>, operation1: seq<string>, operation2: seq<string>)

  const BaseClassLine := "SOU DE ABSTRATO E SOU CHAMADA PELA CLASSE ABSTRATA"

  /** The inherited `hook` does nothing. */
  function HookLines(c: Subclass): (lines: seq<string>)
    ensures c.hookOverride.None? ==> lines == []
  {
    match c.hookOverride
    case None => []
    case Some(lines) => lines
  }

  /** Position of each step in the fixed sequence. */
  function Rank(s: Step): nat {
    match s
    case Hook => 0
    case Operation1 => 1
    case BaseClassMethod => 2
    case Operation2 => 3
  }

  /** The steps of a trace never go backwards. */
  predicate InOrder(trace: seq<Event<Step>>) {
    forall i, j :: 0 <= i < j < |trace| ==> Rank(trace[i].step) <= Rank(trace[j].step)
  }

  /** Where the single base-class line of `c`'s trace sits. */
  function BasePosition(c: Subclass): nat {
    |HookLines(c)| + |c.operation1|
  }

  /** The step that prints line `i` when the hook prints `nh` lines and
      operation1 prints `n1`. */
  function StepAt(nh: nat, n1: nat, i: nat): Step {
    if i < nh then Hook
    else if i < nh + n1 then Operation1
    else if i == nh + n1 then BaseClassMethod
    else Operation2
  }

  /** `template_method`: the hook's lines, operation1's, the base-class line,
      operation2's. */
  function TemplateMethod(c: Subclass): (trace: seq<Event<Step>>)
    ensures |trace| == |HookLines(c)| + |c.operation1| + 1 + |c.operation2|
    ensures trace[BasePosition(c)] == Event(BaseClassMethod, BaseClassLine)
  {
    Emit(Hook, HookLines(c)) + Emit(Operation1, c.operation1)
      + [Event(BaseClassMethod, BaseClassLine)] + Emit(Operation2, c.operation2)
  }

  /** Every line comes from the step owning its position: the hook's lines
      first, then operation1's, the base line, operation2's; so the steps
      never go backwards. */
  lemma TemplateMethodInOrder(c: Subclass)
    ensures forall i :: 0 <= i < |TemplateMethod(c)| ==>
      TemplateMethod(c)[i].step == StepAt(|HookLines(c)|, |c.operation1|, i)
    ensures InOrder(TemplateMethod(c))
  {
    var t := TemplateMethod(c);
    var nh := |HookLines(c)|;
    var n1 := |c.operation1|;
    forall i | 0 <= i < |t| ensures t[i].step == StepAt(nh, n1, i) {
      if i < nh {
        assert t[i] == Emit(Hook, HookLines(c))[i];
      } else if i < nh + n1 {
        assert t[i] == Emit(Operation1, c.operation1)[i - nh];
      } else if i > nh + n1 {
        assert t[i] == Emit(Operation2, c.operation2)[i - nh - n1 - 1];
      }
    }
  }

  /** The printed lines: the hook's, operation1's, the base-class line,
      operation2's. */
  lemma TemplateMethodLines(c: Subclass)
    ensures Lines(TemplateMethod(c)) == HookLines(c) + c.operation1 + [BaseClassLine] + c.operation2
  {
    var a := Emit(Hook, HookLines(c));
    var b := Emit(Operation1, c.operation1);
    var m := [Event(BaseClassMethod, BaseClassLine)];
    var d := Emit(Operation2, c.operation2);
    LinesAppend(a + b + m, d);
    LinesAppend(a + b, m);
    LinesAppend(a, b);
    LinesOfEmit(Hook, HookLines(c));
    LinesOfEmit(Operation1, c.operation1);
    LinesOfEmit(Operation2, c.operation2);
    assert Lines(m) == [BaseClassLine];
  }

  const ConcreteClass1 := Subclass(Some(["Vou utilizar o hook em Concrete1"]), ["Operação 1 concluída"], ["Operação 2 concluída"])

  /** `ConcreteClass2` keeps the inherited, silent hook. */
  const ConcreteClass2 := Subclass(None, ["Operação 1 concluída de outra forma"], ["Operação 2 concluída de outra forma"])

  /** ConcreteClass1 prints its hook line first, then "Operação 1 concluída". */
  lemma ConcreteClass1Output()
    ensures Lines(TemplateMethod(ConcreteClass1)) ==
      ["Vou utilizar o hook em Concrete1", "Operação 1 concluída", BaseClassLine, "Operação 2 concluída"]
  {
    TemplateMethodLines(ConcreteClass1);
  }

  /** ConcreteClass2 prints exactly three lines, none of them from a hook. */
  lemma ConcreteClass2Output()
    ensures Lines(TemplateMethod(ConcreteClass2)) ==
      ["Operação 1 concluída de outra forma", BaseClassLine, "Operação 2 concluída de outra forma"]
    ensures forall e :: e in TemplateMethod(ConcreteClass2) ==> e.step != Hook
  {
    TemplateMethodLines(ConcreteClass2);
    TemplateMethodInOrder(ConcreteClass2);
  }

  /** For every subclass the base class prints exactly one line, the same
      for all subclasses; operation1's lines and the hook's come before it,
      operation2's after it. */
  lemma BaseLineBetweenOperations(c: Subclass, d: Subclass)
    ensures var t := TemplateMethod(c); var k := BasePosition(c);
      && t[k].line == BaseClassLine
      && (forall i :: 0 <= i < |t| ==> (t[i].step == BaseClassMethod <==> i == k))
      && (forall i :: 0 <= i < k ==> t[i].step == Hook || t[i].step == Operation1)
      && (forall i :: k < i < |t| ==> t[i].step == Operation2)
    ensures TemplateMethod(c)[BasePosition(c)] == TemplateMethod(d)[BasePosition(d)]
  {
    TemplateMethodInOrder(c);
  }
}
