/**
 The executable helpers of the second typing guide, codigos/typehints1.py.
 Where a function there has the same body as its namesake in
 codigos/typeannotations1.py (`contagem`, `flat`, `eco`, the list
 comprehensions, `Pessoa.aniversaria`) the definition of module
 `TypeAnnotations` is reused; this module defines what differs.
 */
module TypeHints {
  import opened Python
  import TypeAnnotations

  /** `_range_0_100`; its message has no space after the comma. */
  function Range0To100(x: int): (r: Result<int>)
    ensures r.Ok? <==> 0 <= x <= 100
    ensures r.Ok? ==> r.value == x
    ensures r.Raise? ==> r.error == ValueError("fora de [0,100]")
  {
    if !(0 <= x <= 100) then Raise(ValueError("fora de [0,100]")) else Ok(x)
  }

  /** Both validators accept the same values; they differ only in the text of
      the error they raise. */
  lemma RangeValidatorsAgree(x: int)
    ensures Range0To100(x).Ok? <==> TypeAnnotations.Range0To100(x).Ok?
    ensures Range0To100(x).Ok? ==> Range0To100(x) == TypeAnnotations.Range0To100(x)
    ensures Range0To100(x).Raise? ==> Range0To100(x) != TypeAnnotations.Range0To100(x)
  {
  }

  /** `busca_usuario`: `nome if nome else None`. */
  function BuscaUsuario(nome: string): (r: Option<string>)
    ensures r.None? <==> nome == ""
    ensures r.Some? ==> r.value == nome
  {
    if nome != "" then Some(nome) else None
  }

  /** `nome if nome else None` and `nome or None` are the same function. */
  lemma BuscaUsuarioAgrees(nome: string)
    ensures BuscaUsuario(nome) == TypeAnnotations.BuscaUsuario(nome)
  {
  }

  /** `autenticar` here ignores its argument and always answers True. */
  function Autenticar(cfg: TypeAnnotations.Credenciais): (ok: bool)
    ensures ok
  {
    true
  }

  /** So it accepts credentials the other guide's check rejects. */
  lemma AutenticarAcceptsMore(cfg: TypeAnnotations.Credenciais)
    ensures TypeAnnotations.Autenticar(cfg) ==> Autenticar(cfg)
    ensures Autenticar(map[]) && !TypeAnnotations.Autenticar(map[])
  {
  }

  /** `minimo(a, b)`: `a if a < b else b`, for any `<`. */
  function Minimo<T>(a: T, b: T, less: (T, T) -> bool): (r: T)
    ensures r == a || r == b
    ensures less(a, b) ==> r == a
    ensures !less(a, b) ==> r == b
  {
    if less(a, b) then a else b
  }

  /** On integers `minimo` is the smaller argument. */
  lemma MinimoIsLeast(a: int, b: int)
    ensures var m := Minimo(a, b, (x: int, y: int) => x < y);
      m <= a && m <= b && (m == a || m == b)
  {
  }

  /** Ties go to the second argument: two values that compare equal by key
      give back `b`, not `a`. */
  lemma MinimoTieGoesToSecond()
    ensures Minimo((1, "a"), (1, "b"), (p: (int, string), q: (int, string)) => p.0 < q.0) == (1, "b")
  {
  }

  /** `duplica_sequencia(range(0, 6))` and `multiplica_iteravel(range(0, 6), 3)`
      from the driver; both functions have the bodies of `duplica` and
      `multiplica`. */
  lemma ListComprehensionsDriver()
    ensures TypeAnnotations.Duplica(TypeAnnotations.Contagem(6)) == [0, 2, 4, 6, 8, 10]
    ensures TypeAnnotations.Multiplica(TypeAnnotations.Contagem(6), 3) == [0, 3, 6, 9, 12, 15]
  {
    assert TypeAnnotations.Contagem(6) == [0, 1, 2, 3, 4, 5];
  }

  /** `list(contagem(3))` is `[0, 1, 2]`, and `contagem(n)` yields max(n, 0)
      values counting up from 0. */
  lemma ContagemDriver(n: int)
    ensures TypeAnnotations.Contagem(3) == [0, 1, 2]
    ensures |TypeAnnotations.Contagem(n)| == if n < 0 then 0 else n
  {
  }

  /** The driver's session with `eco`: "stop" is never echoed and ends the
      generator with "bye". */
  lemma EcoDriver(inputs: seq<Option<string>>)
    ensures TypeAnnotations.RunEco(TypeAnnotations.Start, [None, Some("oi"), Some("tudo bem"), Some("stop")]).1
      == [TypeAnnotations.Yielded("start"), TypeAnnotations.Yielded("eco: oi"),
          TypeAnnotations.Yielded("eco: tudo bem"), TypeAnnotations.Returned(Some("bye"))]
    ensures TypeAnnotations.Yielded("eco: stop") !in TypeAnnotations.RunEco(TypeAnnotations.Start, inputs).1
  {
    TypeAnnotations.EcoDriver();
    TypeAnnotations.EcoNeverEchoesStop(TypeAnnotations.Start, inputs);
  }

  /** `Pessoa("João", "Justino", 21).aniversaria()` is 22 and keeps the names. */
  lemma AniversariaDriver(p: TypeAnnotations.Pessoa)
    ensures TypeAnnotations.Aniversaria(TypeAnnotations.Pessoa("João", "Justino", 21))
      == TypeAnnotations.Pessoa("João", "Justino", 22)
    ensures TypeAnnotations.Aniversaria(TypeAnnotations.Aniversaria(p)).idade == p.idade + 2
  {
  }
}
