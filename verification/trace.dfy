/**
 Printed output tagged by the step that printed it, shared by the two
 template-method models: `S` is the set of steps of one template.
 */
module Trace {

  /** One printed line and the step that printed it. */
  datatype Event<S> = Event(step: S, line: string)

  /** The lines `lines`, all printed by `step`. */
  function Emit<S>(step: S, lines: seq<string>): (es: seq<Event<S>>)
    ensures |es| == |lines|
    ensures forall i :: 0 <= i < |es| ==> es[i] == Event(step, lines[i])
  {
    if lines == [] then [] else [Event(step, lines[0])] + Emit(step, lines[1..])
  }

  /** What reaches the terminal: the lines of a trace, in order. */
  function Lines<S>(trace: seq<Event<S>>): (out: seq<string>)
    ensures |out| == |trace|
    ensures forall i :: 0 <= i < |trace| ==> out[i] == trace[i].line
  {
    if trace == [] then [] else [trace[0].line] + Lines(trace[1..])
  }

  /** The lines of one step's events are the lines it printed. */
  lemma {:induction false} LinesOfEmit<S>(step: S, lines: seq<string>)
    ensures Lines(Emit(step, lines)) == lines
  {
    var es := Emit(step, lines);
    assert |Lines(es)| == |lines|;
    forall i | 0 <= i < |lines| ensures Lines(es)[i] == lines[i] {
      assert es[i] == Event(step, lines[i]);
    }
  }

  lemma {:induction false} LinesAppend<S>(a: seq<Event<S>>, b: seq<Event<S>>)
    ensures Lines(a + b) == Lines(a) + Lines(b)
  {
    assert |Lines(a + b)| == |Lines(a) + Lines(b)|;
    forall i | 0 <= i < |a + b|
      ensures Lines(a + b)[i] == (Lines(a) + Lines(b))[i]
    {
      if i < |a| {
        assert (a + b)[i] == a[i];
      } else {
        assert (a + b)[i] == b[i - |a|];
      }
    }
  }
}
