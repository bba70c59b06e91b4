/**
 The executable helpers of the typing tour in codigos/typeannotations1.py:
 a range validator, an empty-string-to-None lookup, a credentials check,
 `primeiro`, the read-only sequence `Caixa`, element-wise maps, the
 generators `contagem`, `flat` and `eco`, and `Pessoa.aniversaria`.
 Generators are modelled by the list their full iteration produces, except
 `eco`, whose send/yield protocol is a state machine.
 */
module TypeAnnotations {
  import opened Python

  // ---------------------------------------------------------------- validation

  /** `_range_0_100`: the value itself inside [0, 100], a ValueError outside. */
  function Range0To100(x: int): (r: Result<int>)
    ensures r.Ok? <==> 0 <= x <= 100
    ensures r.Ok? ==> r.value == x
    ensures r.Raise? ==> r.error == ValueError("fora de [0, 100]")
  {
    if !(0 <= x <= 100) then Raise(ValueError("fora de [0, 100]")) else Ok(x)
  }

  /** `busca_usuario`: `nome or None`. */
  function BuscaUsuario(nome: string): (r: Option<string>)
    ensures r.None? <==> nome == ""
    ensures r.Some? ==> r.value == nome
  {
    if Truthy(Str(nome)) then Some(nome) else None
  }

  /** A `Credenciais` dictionary; only the values' truthiness matters here. */
  type Credenciais = map<string, Value>

  /** `cfg.get(key)`: the value, or None when the key is missing. */
  function Get(cfg: Credenciais, key: string): Value {
    if key in cfg then cfg[key] else NoneValue
  }

  /** `autenticar`: `bool(cfg.get("user") and cfg.get("password"))`. */
  function Autenticar(cfg: Credenciais): (ok: bool)
    ensures ok <==> "user" in cfg && Truthy(cfg["user"]) && "password" in cfg && Truthy(cfg["password"])
  {
    var user := Get(cfg, "user");
    // `a and b` is `a` when `a` is false, `b` otherwise.
    var both := if Truthy(user) then Get(cfg, "password") else user;
    Truthy(both)
  }

  lemma AutenticarExamples()
    ensures Autenticar(map["user" := Str("x"), "password" := Str("y"), "remember_me" := Bool(true)])
    ensures !Autenticar(map["user" := Str("x"), "password" := Str("")])
    ensures !Autenticar(map["user" := Str("x")])
  {
  }

  // ---------------------------------------------------------------- sequences

  /** `primeiro(seq)`: `seq[0]`, which raises IndexError on an empty sequence. */
  function Primeiro<T>(s: seq<T>): (r: Result<T>)
    ensures r.Raise? <==> |s| == 0
    ensures r.Raise? ==> r.error == IndexError
    ensures r.Ok? ==> r.value == s[0]
  {
    if |s| == 0 then Raise(IndexError) else Ok(s[0])
  }

  /** `Caixa(dados)`: an immutable copy of the data as a tuple. */
  datatype Caixa<T> = Caixa(dados: seq<T>) {

    /** `len(c)`: the number of items given to the constructor. */
    function Len(): (n: nat)
      ensures n == |dados|
    {
      |dados|
    }

    /** `c[i]`: tuple indexing, where a negative index counts from the end. */
    function GetItem(i: int): (r: Result<T>)
      ensures r.Ok? <==> -(Len() as int) <= i < Len()
      ensures r.Ok? && 0 <= i ==> r.value == dados[i]
      ensures r.Ok? && i < 0 ==> r.value == dados[Len() + i]
      ensures r.Raise? ==> r.error == IndexError
    {
      if 0 <= i < |dados| then Ok(dados[i])
      else if -|dados| <= i < 0 then Ok(dados[|dados| + i])
      else Raise(IndexError)
    }
  }

  /** A box keeps its input's length and elements, and `primeiro` of a box is
      `primeiro` of what went in. */
  lemma CaixaMirrorsInput<T>(dados: seq<T>, i: int)
    ensures Caixa(dados).Len() == |dados|
    ensures 0 <= i < |dados| ==> Caixa(dados).GetItem(i) == Ok(dados[i])
    ensures Caixa(dados).GetItem(0) == Primeiro(dados)
    ensures |dados| > 0 ==> Caixa(dados).GetItem(-1) == Ok(dados[|dados| - 1])
  {
  }

  /** The driver: `primeiro(Caixa([10, 20, 30]))` is 10. */
  lemma PrimeiroCaixaExample()
    ensures Caixa([10, 20, 30]).GetItem(0) == Ok(10)
    ensures Primeiro([10, 20, 30]) == Ok(10)
  {
  }

  /** `mapear(func, itens)`: `[func(x) for x in itens]`. */
  function Mapear<T, U>(func: T -> U, itens: seq<T>): (r: seq<U>)
    ensures |r| == |itens|
    ensures forall i :: 0 <= i < |itens| ==> r[i] == func(itens[i])
  {
    if itens == [] then [] else [func(itens[0])] + Mapear(func, itens[1..])
  }

  /** `duplica(seq)`: `[x * 2 for x in seq]`. */
  function Duplica(s: seq<int>): (r: seq<int>)
    ensures |r| == |s|
    ensures forall i :: 0 <= i < |s| ==> r[i] == 2 * s[i]
  {
    Mapear(x => x * 2, s)
  }

  /** `multiplica(seq, k)`: `[x * k for x in seq]`. */
  function Multiplica(s: seq<int>, k: int): (r: seq<int>)
    ensures |r| == |s|
    ensures forall i :: 0 <= i < |s| ==> r[i] == k * s[i]
  {
    Mapear(x => x * k, s)
  }

  /** Doubling is multiplying by two, and multiplying distributes over concatenation. */
  lemma DuplicaIsMultiplicaTwo(s: seq<int>, t: seq<int>, k: int)
    ensures Duplica(s) == Multiplica(s, 2)
    ensures Multiplica(s + t, k) == Multiplica(s, k) + Multiplica(t, k)
  {
  }

  lemma MapearExample()
    ensures Mapear(z => z * 10, [1, 2, 3]) == [10, 20, 30]
  {
  }

  // ---------------------------------------------------------------- generators

  /** What `list(contagem(n))` collects: 0, 1, ..., n - 1. */
  function Contagem(n: int): (r: seq<int>)
    ensures |r| == if n > 0 then n else 0
    ensures forall i :: 0 <= i < |r| ==> r[i] == i
    decreases n
  {
    if n <= 0 then [] else Contagem(n - 1) + [n - 1]
  }

  /** The generator body run to exhaustion: `i = 0; while i < n: yield i; i += 1`. */
  method RunContagem(n: int) returns (yielded: seq<int>)
    ensures yielded == Contagem(n)
  {
    yielded := [];
    var i := 0;
    while i < n
      invariant n <= 0 ==> i == 0
      invariant n > 0 ==> 0 <= i <= n
      invariant yielded == Contagem(i)
      decreases n - i
    {
      yielded := yielded + [i];
      i := i + 1;
    }
  }

  lemma ContagemExample()
    ensures Contagem(3) == [0, 1, 2]
    ensures Contagem(0) == [] && Contagem(-5) == []
  {
  }

  /** What `list(flat(nested))` collects: the inner sequences, concatenated in order. */
  function Flat<T>(nested: seq<seq<T>>): (r: seq<T>)
    decreases |nested|
  {
    if nested == [] then [] else Flat(nested[..|nested| - 1]) + nested[|nested| - 1]
  }

  function TotalLength<T>(nested: seq<seq<T>>): nat
    decreases |nested|
  {
    if nested == [] then 0 else TotalLength(nested[..|nested| - 1]) + |nested[|nested| - 1]|
  }

  /** Flattening the concatenation of two lists of lists is concatenating
      their flattenings. */
  lemma {:induction false} FlatAppend<T>(a: seq<seq<T>>, b: seq<seq<T>>)
    ensures Flat(a + b) == Flat(a) + Flat(b)
    decreases |b|
  {
    if b == [] {
      assert a + b == a;
    } else {
      var b', last := b[..|b| - 1], b[|b| - 1];
      assert (a + b)[..|a + b| - 1] == a + b';
      assert (a + b)[|a + b| - 1] == last;
      assert Flat(a + b) == Flat(a + b') + last;
      FlatAppend(a, b');
      assert Flat(b) == Flat(b') + last;
    }
  }

  /** Nothing is lost or invented: the flattening is as long as all the
      inner sequences together (`FlatAppend` and `FlatCons` say where each
      inner sequence appears). */
  lemma {:induction false} FlatLength<T>(nested: seq<seq<T>>)
    ensures |Flat(nested)| == TotalLength(nested)
    decreases |nested|
  {
    if nested != [] {
      FlatLength(nested[..|nested| - 1]);
    }
  }

  lemma FlatCons<T>(head: seq<T>, rest: seq<seq<T>>)
    ensures Flat([head] + rest) == head + Flat(rest)
  {
    FlatAppend([head], rest);
    assert [head][..0] == [];
  }

  /** The generator body run to exhaustion: `for sub in nested: yield from sub`. */
  method RunFlat<T>(nested: seq<seq<T>>) returns (yielded: seq<T>)
    ensures yielded == Flat(nested)
  {
    yielded := [];
    var k := 0;
    while k < |nested|
      invariant 0 <= k <= |nested|
      invariant yielded == Flat(nested[..k])
    {
      var sub := nested[k];
      var j := 0;
      ghost var before := yielded;
      while j < |sub|
        invariant 0 <= j <= |sub|
        invariant yielded == before + sub[..j]
      {
        yielded := yielded + [sub[j]];
        j := j + 1;
      }
      assert sub[..j] == sub;
      assert nested[..k + 1][..k] == nested[..k];
      k := k + 1;
    }
    assert nested[..k] == nested;
  }

  lemma FlatExample()
    ensures Flat([[1, 2], [3]]) == [1, 2, 3]
  {
    FlatCons([1, 2], [[3]]);
    FlatCons([3], []);
  }

  // ---------------------------------------------------------------- eco

  /** Where the `eco` generator is suspended. */
  datatype EcoState =
    | Start     // created, body not entered
    | Running   // suspended at a `yield`
    | Done      // returned

  /** What one `next()` / `send()` call produces. */
  datatype EcoReply =
    | Yielded(text: string)             // the value of the `yield`
    | Returned(value: Option<string>)   // StopIteration, with the return value if any
    | Raised(error: Exception)          // an exception other than StopIteration

  const NotStarted := TypeError("can't send non-None value to a just-started generator")

  /** Python's `f"eco: {recebido}"`, where `None` formats as "None". */
  function EchoOf(received: Option<string>): string {
    match received
    case None => "eco: None"
    case Some(msg) => "eco: " + msg
  }

  /** One resumption of `eco`: `None` is `next(e)`, `Some(m)` is `e.send(m)`. */
  function EcoStep(s: EcoState, received: Option<string>): (r: (EcoState, EcoReply))
    ensures s == Start && received.None? ==> r == (Running, Yielded("start"))
    ensures s == Start && received.Some? ==> r == (Start, Raised(NotStarted))
    ensures s == Running && received == Some("stop") ==> r == (Done, Returned(Some("bye")))
    ensures s == Running && received != Some("stop") ==> r == (Running, Yielded(EchoOf(received)))
    ensures s == Done ==> r == (Done, Returned(None))
    ensures r.1 != Yielded("eco: stop")
  {
    match s
    case Start =>
      if received.None? then (Running, Yielded("start")) else (Start, Raised(NotStarted))
    case Running =>
      if received == Some("stop") then (Done, Returned(Some("bye")))
      else
        assert received.Some? ==> EchoOf(received)[|"eco: "|..] == received.value;
        (Running, Yielded(EchoOf(received)))
    case Done => (Done, Returned(None))
  }

  /** A whole session: the state reached and every reply, in order. */
  function RunEco(s: EcoState, inputs: seq<Option<string>>): (r: (EcoState, seq<EcoReply>))
    ensures |r.1| == |inputs|
    ensures inputs != [] ==> r.1[0] == EcoStep(s, inputs[0]).1
    ensures inputs == [] ==> r.0 == s
    decreases |inputs|
  {
    if inputs == [] then (s, [])
    else
      var step := EcoStep(s, inputs[0]);
      var rest := RunEco(step.0, inputs[1..]);
      (rest.0, [step.1] + rest.1)
  }

  /** However it is driven, `eco` never echoes "stop". */
  lemma {:induction false} EcoNeverEchoesStop(s: EcoState, inputs: seq<Option<string>>)
    ensures Yielded("eco: stop") !in RunEco(s, inputs).1
    decreases |inputs|
  {
    if inputs != [] {
      EcoNeverEchoesStop(EcoStep(s, inputs[0]).0, inputs[1..]);
    }
  }

  /** Once finished, it stays finished and every call only reports the end. */
  lemma {:induction false} EcoDoneIsFinal(inputs: seq<Option<string>>)
    ensures RunEco(Done, inputs).0 == Done
    ensures forall r :: r in RunEco(Done, inputs).1 ==> r == Returned(None)
    decreases |inputs|
  {
    if inputs != [] {
      EcoDoneIsFinal(inputs[1..]);
    }
  }

  function Sends(msgs: seq<string>): (r: seq<Option<string>>)
    ensures |r| == |msgs|
    ensures forall i :: 0 <= i < |msgs| ==> r[i] == Some(msgs[i])
  {
    if msgs == [] then [] else [Some(msgs[0])] + Sends(msgs[1..])
  }

  function Echoes(msgs: seq<string>): (r: seq<EcoReply>)
    ensures |r| == |msgs|
    ensures forall i :: 0 <= i < |msgs| ==> r[i] == Yielded("eco: " + msgs[i])
  {
    if msgs == [] then [] else [Yielded("eco: " + msgs[0])] + Echoes(msgs[1..])
  }

  /** While running, every message other than "stop" is echoed back and
      "stop" ends the generator with the return value "bye". */
  lemma {:induction false} EcoEchoes(msgs: seq<string>)
    requires "stop" !in msgs
    ensures RunEco(Running, Sends(msgs)) == (Running, Echoes(msgs))
    ensures RunEco(Running, Sends(msgs + ["stop"])) == (Done, Echoes(msgs) + [Returned(Some("bye"))])
    decreases |msgs|
  {
    if msgs == [] {
      assert msgs + ["stop"] == ["stop"];
      assert Sends(["stop"]) == [Some("stop")];
      assert RunEco(Done, []) == (Done, []);
      assert EcoStep(Running, Some("stop")) == (Done, Returned(Some("bye")));
      var rest := RunEco(Done, []);
      assert [Returned(Some("bye"))] + rest.1 == [Returned(Some("bye"))];
      assert RunEco(Running, [Some("stop")]).1 == [Returned(Some("bye"))];
      assert Echoes(msgs) == [];
      assert Echoes(msgs) + [Returned(Some("bye"))] == [Returned(Some("bye"))];
    } else {
      var m := msgs[0];
      assert m != "stop";
      assert EcoStep(Running, Some(m)) == (Running, Yielded("eco: " + m));
      EcoEchoes(msgs[1..]);
      assert Sends(msgs)[1..] == Sends(msgs[1..]);
      assert Echoes(msgs) == [Yielded("eco: " + m)] + Echoes(msgs[1..]);
      assert (msgs + ["stop"])[1..] == msgs[1..] + ["stop"];
      assert Sends(msgs + ["stop"])[1..] == Sends(msgs[1..] + ["stop"]);
      assert Sends(msgs + ["stop"])[0] == Some(m);
      assert [Yielded("eco: " + m)] + (Echoes(msgs[1..]) + [Returned(Some("bye"))])
        == Echoes(msgs) + [Returned(Some("bye"))];
    }
  }

  /** The driver: `next(e)`, `e.send("oi")`, `e.send("tudo bem")`, `e.send("stop")`. */
  lemma EcoDriver()
    ensures RunEco(Start, [None, Some("oi"), Some("tudo bem"), Some("stop")]).1 ==
      [Yielded("start"), Yielded("eco: oi"), Yielded("eco: tudo bem"), Returned(Some("bye"))]
  {
    var msgs := ["oi", "tudo bem"];
    EcoEchoes(msgs);
    assert Sends(msgs + ["stop"]) == [Some("oi"), Some("tudo bem"), Some("stop")];
    assert "eco: " + "oi" == "eco: oi";
    assert "eco: " + "tudo bem" == "eco: tudo bem";
    assert Echoes(msgs) == [Yielded("eco: oi"), Yielded("eco: tudo bem")];
    var inputs := [None, Some("oi"), Some("tudo bem"), Some("stop")];
    assert inputs[1..] == Sends(msgs + ["stop"]);
  }

  // ---------------------------------------------------------------- narrowing

  /** The three values of `Cor = Literal["red", "green", "blue"]`. The
      annotation is not enforced when the program runs, so any string can
      reach `pinta`. */
  const Cores: set<string> := {"red", "green", "blue"}

  const UnreachablePrefix := "Expected code to be unreachable, but got: "

  /** `repr` of a string free of quotes, backslashes and unprintable characters. */
  function Repr(s: string): string {
    "'" + s + "'"
  }

  /** `pinta(cor)`: the three colours fall into their own branch and return
      None; any other value reaches `assert_never`, which raises. */
  function Pinta(cor: string): (r: Result<()>)
    ensures r.Ok? <==> cor in Cores
    ensures r.Raise? ==>
      && r.error.AssertionError?
      && StartsWith(r.error.message, UnreachablePrefix)
      && r.error.message[|UnreachablePrefix|..] == Repr(cor)
  {
    if cor == "red" then Ok(())
    else if cor == "green" then Ok(())
    else if cor == "blue" then Ok(())
    else Raise(AssertionError(UnreachablePrefix + Repr(cor)))
  }

  /** The comparison is exact: other spellings of a colour are not narrowed
      to it and reach `assert_never`. */
  lemma PintaExact()
    ensures Pinta("red").Ok? && Pinta("green").Ok? && Pinta("blue").Ok?
    ensures Pinta("RED") == Raise(AssertionError("Expected code to be unreachable, but got: 'RED'"))
    ensures Pinta("").Raise?
  {
    assert "RED" !in Cores by {
      assert "RED"[0] != "red"[0];
    }
    assert UnreachablePrefix + Repr("RED") == "Expected code to be unreachable, but got: 'RED'";
  }

  /** `aborta(msg)`: never returns; it raises RuntimeError carrying `msg`. */
  function Aborta(msg: string): (r: Result<()>)
    ensures !r.Ok?
    ensures r.error == RuntimeError(msg)
  {
    Raise(RuntimeError(msg))
  }

  // ---------------------------------------------------------------- Pessoa

  datatype Pessoa = Pessoa(nome: string, sobrenome: string, idade: int)

  /** `aniversaria`: one year older, same names; the method returns `self`,
      modelled as returning the updated value. */
  function Aniversaria(p: Pessoa): (r: Pessoa)
    ensures r.idade == p.idade + 1
    ensures r.nome == p.nome && r.sobrenome == p.sobrenome
  {
    p.(idade := p.idade + 1)
  }

  /** `fala`: the line it prints; the person is returned unchanged. */
  function Fala(p: Pessoa): (r: (Pessoa, string))
    ensures r.0 == p
    ensures StartsWith(r.1, p.nome)
  {
    (p, p.nome + " está falando")
  }

  /** The driver's chain `p.fala().aniversaria().fala()`. */
  lemma FluentChain()
    ensures var p := Pessoa("João", "Justino", 21);
      var (p1, l1) := Fala(p);
      var (p2, l2) := Fala(Aniversaria(p1));
      l1 == l2 == "João está falando" && p2 == Pessoa("João", "Justino", 22)
  {
  }
}
