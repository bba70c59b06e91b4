/**
 Template method with two hooks (behavioral/template_method/template_method2.py).
 `Pizza.prepare` runs hook_before_add_ingredients, add_ingredients,
 hook_after_add_ingredients, cook, cut and serve, in that order. A concrete
 pizza is its class name, the lines of the hooks it overrides and the lines
 of its two mandatory steps; `cut` and `serve` are inherited and name the class.
 */
module TemplateMethodPizza {
  import opened Python
  import opened Trace

  datatype Step = HookBefore | AddIngredients | HookAfter | Cook | Cut | Serve

  /** A concrete pizza: its class name, what its hook overrides (if any)
      print, and what its `add_ingredients` and `cook` print, any number of
      lines each. */
  datatype Pizza = Pizza(
    className: string,
    hookBefore: Option<seq<string>>,
    ingredients: seq<string>,
    hookAfter: Option<seq<string>>,
    cooking: seq<string>)

  /** An inherited hook prints nothing. */
  function HookLines(h: Option<seq<string>>): (lines: seq<string>)
    ensures h.None? ==> lines == []
  {
    match h
    case None => []
    case Some(lines) => lines
  }

  function Rank(s: Step): nat {
    match s
    case HookBefore => 0
    case AddIngredients => 1
    case HookAfter => 2
    case Cook => 3
    case Cut => 4
    case Serve => 5
  }

  predicate InOrder(trace: seq<Event<Step>>) {
    forall i, j :: 0 <= i < j < |trace| ==> Rank(trace[i].step) <= Rank(trace[j].step)
  }

  predicate IsHook(s: Step) {
    s == HookBefore || s == HookAfter
  }

  /** The steps of a trace with the hook events dropped. */
  function MandatorySteps(trace: seq<Event<Step>>): seq<Step> {
    if trace == [] then []
    else if IsHook(trace[0].step) then MandatorySteps(trace[1..])
    else [trace[0].step] + MandatorySteps(trace[1..])
  }

  /** `n` copies of step `s`. */
  function Repeat(s: Step, n: nat): (r: seq<Step>)
    ensures |r| == n && forall i :: 0 <= i < n ==> r[i] == s
  {
    if n == 0 then [] else [s] + Repeat(s, n - 1)
  }

  /** The inherited `cut` names the concrete class. */
  function CutLine(p: Pizza): (line: string)
    ensures StartsWith(line, "Contando a pizza ") && line[|"Contando a pizza "|..] == p.className
  {
    "Contando a pizza " + p.className
  }

  /** The inherited `serve` names the concrete class. */
  function ServeLine(p: Pizza): (line: string)
    ensures StartsWith(line, "Servindo a pizza ") && line[|"Servindo a pizza "|..] == p.className
  {
    "Servindo a pizza " + p.className
  }

  /** The step that prints line `i` of `prepare` for pizza `p`. */
  function StepAt(p: Pizza, i: nat): Step {
    var b1 := |HookLines(p.hookBefore)|;
    var b2 := b1 + |p.ingredients|;
    var b3 := b2 + |HookLines(p.hookAfter)|;
    var b4 := b3 + |p.cooking|;
    if i < b1 then HookBefore
    else if i < b2 then AddIngredients
    else if i < b3 then HookAfter
    else if i < b4 then Cook
    else if i == b4 then Cut
    else Serve
  }

  /** The lines of the inherited `cut` and `serve`. */
  function CutAndServe(p: Pizza): seq<Event<Step>> {
    [Event(Cut, CutLine(p)), Event(Serve, ServeLine(p))]
  }

  /** `prepare`: the two hooks, add_ingredients, cook, then the inherited
      cut and serve lines last. */
  function Prepare(p: Pizza): (trace: seq<Event<Step>>)
    ensures |trace| == |HookLines(p.hookBefore)| + |p.ingredients| + |HookLines(p.hookAfter)| + |p.cooking| + 2
    ensures trace[|trace| - 2] == Event(Cut, CutLine(p))
    ensures trace[|trace| - 1] == Event(Serve, ServeLine(p))
  {
    Emit(HookBefore, HookLines(p.hookBefore)) + (Emit(AddIngredients, p.ingredients)
      + (Emit(HookAfter, HookLines(p.hookAfter)) + (Emit(Cook, p.cooking) + CutAndServe(p))))
  }

  /** Every line comes from the step owning its position, so the steps run
      in the fixed order and never go backwards. */
  lemma PrepareInOrder(p: Pizza)
    ensures forall i :: 0 <= i < |Prepare(p)| ==> Prepare(p)[i].step == StepAt(p, i)
    ensures InOrder(Prepare(p))
  {
    var t := Prepare(p);
    var e1 := Emit(HookBefore, HookLines(p.hookBefore));
    var e2 := Emit(AddIngredients, p.ingredients);
    var e3 := Emit(HookAfter, HookLines(p.hookAfter));
    var e4 := Emit(Cook, p.cooking);
    var r4 := e4 + CutAndServe(p);
    var r3 := e3 + r4;
    var r2 := e2 + r3;
    assert t == e1 + r2;
    forall i | 0 <= i < |t| ensures t[i].step == StepAt(p, i) {
      var b1 := |e1|;
      var b2 := b1 + |e2|;
      var b3 := b2 + |e3|;
      var b4 := b3 + |e4|;
      if i < b1 {
        assert t[i] == e1[i];
      } else if i < b2 {
        assert t[i] == r2[i - b1] == e2[i - b1];
      } else if i < b3 {
        assert t[i] == r2[i - b1] == r3[i - b2] == e3[i - b2];
      } else if i < b4 {
        assert t[i] == r2[i - b1] == r3[i - b2] == r4[i - b3] == e4[i - b3];
      } else {
        assert t[i] == r2[i - b1] == r3[i - b2] == r4[i - b3] == CutAndServe(p)[i - b4];
      }
    }
  }

  /** The printed output of `prepare`: the first hook's lines, the
      ingredients lines, the second hook's lines, the cooking lines, then
      the cut and serve lines. */
  lemma PrepareLines(p: Pizza)
    ensures Lines(Prepare(p)) == HookLines(p.hookBefore) + (p.ingredients + (HookLines(p.hookAfter)
      + (p.cooking + [CutLine(p), ServeLine(p)])))
  {
    var e1 := Emit(HookBefore, HookLines(p.hookBefore));
    var e2 := Emit(AddIngredients, p.ingredients);
    var e3 := Emit(HookAfter, HookLines(p.hookAfter));
    var e4 := Emit(Cook, p.cooking);
    var tail := CutAndServe(p);
    assert Lines(tail) == [CutLine(p), ServeLine(p)];
    LinesOfEmit(Cook, p.cooking);
    LinesAppend(e4, tail);
    assert Lines(e4 + tail) == p.cooking + [CutLine(p), ServeLine(p)];
    LinesOfEmit(HookAfter, HookLines(p.hookAfter));
    LinesAppend(e3, e4 + tail);
    assert Lines(e3 + (e4 + tail)) == HookLines(p.hookAfter) + (p.cooking + [CutLine(p), ServeLine(p)]);
    LinesOfEmit(AddIngredients, p.ingredients);
    LinesAppend(e2, e3 + (e4 + tail));
    LinesOfEmit(HookBefore, HookLines(p.hookBefore));
    LinesAppend(e1, e2 + (e3 + (e4 + tail)));
  }

  /** Whatever the hooks print, the lines of the mandatory steps come out
      as add_ingredients', then cook's, then one cut and one serve line. */
  lemma MandatorySkeleton(p: Pizza)
    ensures MandatorySteps(Prepare(p)) ==
      Repeat(AddIngredients, |p.ingredients|) + (Repeat(Cook, |p.cooking|) + [Cut, Serve])
  {
    var e1 := Emit(HookBefore, HookLines(p.hookBefore));
    var e2 := Emit(AddIngredients, p.ingredients);
    var e3 := Emit(HookAfter, HookLines(p.hookAfter));
    var e4 := Emit(Cook, p.cooking);
    var tail := CutAndServe(p);
    var r3 := e4 + tail;
    var r2 := e3 + r3;
    var r1 := e2 + r2;
    assert MandatorySteps(r3) == Repeat(Cook, |p.cooking|) + [Cut, Serve] by {
      MandatoryStepsAppend(e4, tail);
      MandatoryKept(Cook, p.cooking);
      assert tail[1..][1..] == [];
      assert MandatorySteps(tail[1..]) == [Serve];
    }
    assert MandatorySteps(r2) == MandatorySteps(r3) by {
      MandatoryStepsAppend(e3, r3);
      HooksOnlyDropped(HookAfter, HookLines(p.hookAfter));
    }
    assert MandatorySteps(r1) == Repeat(AddIngredients, |p.ingredients|) + MandatorySteps(r2) by {
      MandatoryStepsAppend(e2, r2);
      MandatoryKept(AddIngredients, p.ingredients);
    }
    assert MandatorySteps(e1 + r1) == MandatorySteps(r1) by {
      MandatoryStepsAppend(e1, r1);
      HooksOnlyDropped(HookBefore, HookLines(p.hookBefore));
    }
    assert Prepare(p) == e1 + r1;
  }

  lemma {:induction false} MandatoryStepsAppend(a: seq<Event<Step>>, b: seq<Event<Step>>)
    ensures MandatorySteps(a + b) == MandatorySteps(a) + MandatorySteps(b)
  {
    if a == [] {
      assert a + b == b;
    } else {
      assert (a + b)[1..] == a[1..] + b;
      MandatoryStepsAppend(a[1..], b);
    }
  }

  lemma {:induction false} HooksOnlyDropped(step: Step, lines: seq<string>)
    requires IsHook(step)
    ensures MandatorySteps(Emit(step, lines)) == []
  {
    if lines != [] {
      assert Emit(step, lines)[1..] == Emit(step, lines[1..]);
      HooksOnlyDropped(step, lines[1..]);
    }
  }

  lemma {:induction false} MandatoryKept(step: Step, lines: seq<string>)
    requires !IsHook(step)
    ensures MandatorySteps(Emit(step, lines)) == Repeat(step, |lines|)
  {
    if lines != [] {
      assert Emit(step, lines)[1..] == Emit(step, lines[1..]);
      MandatoryKept(step, lines[1..]);
    }
  }

  const AModaCasa := Pizza(
    "AModaCasa", None,
    ["AModaCasa: 2 queijos, Calabresa, molho, massa"], None,
    ["Preparando a pizza AModaCasa por 45 min no forno a lenha"])

  const Vegan := Pizza(
    "Vegan", Some(["Vegan - Lavando ingredientes"]),
    ["Vegan: beringela, spinafre, salsa, massa, molho"], None,
    ["Preparando a pizza Vegan por 10 min no forno a lenha"])

  /** A pizza without hooks whose two mandatory steps print one line each
      prints four lines. */
  lemma PlainPizzaLines(p: Pizza, ingredient: string, cooking: string)
    requires p.hookBefore.None? && p.hookAfter.None?
    requires p.ingredients == [ingredient] && p.cooking == [cooking]
    ensures Lines(Prepare(p)) == [ingredient, cooking, CutLine(p), ServeLine(p)]
  {
    PrepareLines(p);
  }

  lemma AModaCasaOutput()
    ensures Lines(Prepare(AModaCasa)) == [
      "AModaCasa: 2 queijos, Calabresa, molho, massa",
      "Preparando a pizza AModaCasa por 45 min no forno a lenha",
      "Contando a pizza AModaCasa",
      "Servindo a pizza AModaCasa"]
  {
    PlainPizzaLines(AModaCasa, "AModaCasa: 2 queijos, Calabresa, molho, massa",
      "Preparando a pizza AModaCasa por 45 min no forno a lenha");
    assert CutLine(AModaCasa) == "Contando a pizza AModaCasa";
    assert ServeLine(AModaCasa) == "Servindo a pizza AModaCasa";
  }

  /** Vegan washes its ingredients, in its hook, immediately before adding them. */
  lemma VeganOutput()
    ensures Lines(Prepare(Vegan)) == [
      "Vegan - Lavando ingredientes",
      "Vegan: beringela, spinafre, salsa, massa, molho",
      "Preparando a pizza Vegan por 10 min no forno a lenha",
      "Contando a pizza Vegan",
      "Servindo a pizza Vegan"]
    ensures Prepare(Vegan)[0].step == HookBefore
    ensures Prepare(Vegan)[1].step == AddIngredients
  {
    var plain := Vegan.(hookBefore := None);
    PlainPizzaLines(plain, "Vegan: beringela, spinafre, salsa, massa, molho",
      "Preparando a pizza Vegan por 10 min no forno a lenha");
    HookBeforeAdds(plain, ["Vegan - Lavando ingredientes"]);
    assert CutLine(Vegan) == "Contando a pizza Vegan";
    assert ServeLine(Vegan) == "Servindo a pizza Vegan";
    PrepareInOrder(Vegan);
    assert StepAt(Vegan, 0) == HookBefore && StepAt(Vegan, 1) == AddIngredients;
  }

  /** Overriding `hook_before_add_ingredients` only puts its lines in front. */
  lemma HookBeforeAdds(p: Pizza, lines: seq<string>)
    requires p.hookBefore.None?
    ensures Lines(Prepare(p.(hookBefore := Some(lines)))) == lines + Lines(Prepare(p))
  {
    var q := p.(hookBefore := Some(lines));
    var rest := p.ingredients + (HookLines(p.hookAfter) + (p.cooking + [CutLine(p), ServeLine(p)]));
    assert Lines(Prepare(p)) == rest by {
      PrepareLines(p);
      assert [] + rest == rest;
    }
    assert Lines(Prepare(q)) == lines + rest by {
      PrepareLines(q);
      assert CutLine(q) == CutLine(p) && ServeLine(q) == ServeLine(p);
    }
  }

  /** Every pizza's mandatory lines end with one cut and one serve line;
      two pizzas whose add_ingredients and cook print as many lines run the
      same mandatory steps, and the last two lines differ only through the
      class name. */
  lemma SameSkeleton(p: Pizza, q: Pizza)
    ensures var m := MandatorySteps(Prepare(p)); |m| >= 2 && m[|m| - 2..] == [Cut, Serve]
    ensures |p.ingredients| == |q.ingredients| && |p.cooking| == |q.cooking| ==>
      MandatorySteps(Prepare(p)) == MandatorySteps(Prepare(q))
    ensures p.className == q.className ==>
      Prepare(p)[|Prepare(p)| - 2..] == Prepare(q)[|Prepare(q)| - 2..]
  {
    MandatorySkeleton(p);
    MandatorySkeleton(q);
  }
}
