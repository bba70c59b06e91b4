# Design patterns and typing helpers, modelled in Dafny

This project models the executable core of a Python teaching repository.
That core has three parts:

- small design-pattern programs: chain of responsibility, simple factory, factory method, template method, singleton, monostate, prototype, and a SOLID restaurant;
- the runtime helpers of two typing guides, `codigos/typeannotations1.py` and `codigos/typehints1.py`;
- a shared module, `Python`, for the parts of the Python runtime those programs rely on: `None`, the exceptions they raise, truthiness, attribute dictionaries, and the ASCII behaviour of `str.lower()` / `str.upper()`.

Each program gets its own module.

Printing is modelled as returning the printed text. A run of a template method is modelled as a trace of `(step, line)` events. Exceptions become a `Result` value (`Ok` or `Raise`). The generator `eco` becomes an explicit state machine: `Start`, `Running`, `Done`.

Object identity matters for singleton, monostate and prototype, so those modules keep an explicit heap. Objects are indices into a sequence, and `is` is index equality. The effect of a constructor or an attribute write is then a pure function from heap to heap.

Modules and the source files they model:

- `ChainFunctions`: `chain_of_responsability1.py`, the function chain.
- `ChainObjects`: `chain_of_responsability2.py`, handlers linked by `sucessor`, ending in the fallback.
- `SimpleFactoryFive`: `creational/factory/simple_factory/simple_factory1.py`.
- `SimpleFactoryThree`: `creational/factory/simple_factory1.py`.
- `FactoryMethod`: `factory_method.py`, with the two regional factories.
- `TemplateMethodOne`: `template_method1.py`.
- `TemplateMethodPizza`: `template_method2.py`.
- `Trace`: the `(step, line)` events both template-method modules print, and the printed lines of a trace.
- `TypeAnnotations`: `codigos/typeannotations1.py`.
- `TypeHints`: `codigos/typehints1.py`. It reuses the `TypeAnnotations` definitions where the two files have the same function body.
- `Singleton`: `singleton1.py`.
- `Monostate`: `monostate.py`.
- `Prototype`: `prototype.py`.
- `Solid`: `solid.py`.

## Model

| member | source | states |
|---|---|---|
| Python.Lower | DesignPatterns/codings/creational/factory/simple_factory/simple_factory1.py:66 | `str.lower()` keeps the length and maps each ASCII capital to its small letter, every other character unchanged |
| Python.Upper | DesignPatterns/codings/behavioral/chain_of_responsabilities/chain_of_responsability2.py:47 | `str.upper()` keeps the length and maps each ASCII small letter to its capital, every other character unchanged |
| Python.LowerUpperRoundTrip | DesignPatterns/codings/creational/factory/simple_factory/simple_factory1.py:66 | upper-casing a string without capitals and lower-casing it again gives the string back |
| Python.LowerIdempotent | DesignPatterns/codings/creational/factory/simple_factory/simple_factory1.py:66 | lower-casing twice is lower-casing once, so an already lower-cased tag is matched unchanged |
| Python.GetAttr | DesignPatterns/codings/creational/singleton/singleton1.py:26-27 | reading an attribute succeeds exactly when it was set, and otherwise raises AttributeError naming it |
| Python.Truthy | DesignPatterns/codings/creational/singleton/monostate.py:28-32 | the truth test of `if nome:` and of `bool(...)`: a value is false exactly when it is None, False, 0 or the empty string |
| Python.FalsyValues | codigos/typeannotations1.py:98-100 | the values Python treats as false are exactly None, False, 0 and the empty string; every other value is truthy |
| ChainFunctions.HandlerUnsolve | DesignPatterns/codings/behavioral/chain_of_responsabilities/chain_of_responsability1.py:27-28 | the fallback never fails and echoes its input after "handlers não encotraram " |
| ChainFunctions.HandlerDef | DesignPatterns/codings/behavioral/chain_of_responsabilities/chain_of_responsability1.py:19-24 | D, E, F are answered with the handler_DEF text, anything else with the fallback text; the answer ends with the input |
| ChainFunctions.HandlerAbc | DesignPatterns/codings/behavioral/chain_of_responsabilities/chain_of_responsability1.py:11-16 | A, B, C answered by handler_ABC, D, E, F by handler_DEF, everything else by the fallback, each answer ending with the input |
| ChainFunctions.HandlerAbcAnswersByOwner | DesignPatterns/codings/behavioral/chain_of_responsabilities/chain_of_responsability1.py:11-28 | the answer is the prefix of the letter's owner followed by the letter; the fallback answers exactly when no list owns the letter |
| ChainFunctions.ExactMembership | DesignPatterns/codings/behavioral/chain_of_responsabilities/chain_of_responsability1.py:12-14 | list membership is exact: "a", "d", "AB" and "" all reach the fallback |
| ChainFunctions.DriverOutputAbc | DesignPatterns/codings/behavioral/chain_of_responsabilities/chain_of_responsability1.py:31-39 | the driver's letters A, B and C each get the handler_ABC text followed by the letter |
| ChainFunctions.DriverOutputDef | DesignPatterns/codings/behavioral/chain_of_responsabilities/chain_of_responsability1.py:31-39 | the driver's letters D, E and F each get the handler_DEF text followed by the letter |
| ChainFunctions.DriverOutputUnsolved | DesignPatterns/codings/behavioral/chain_of_responsabilities/chain_of_responsability1.py:31-39 | the driver's letters G, H and I each get the fallback text followed by the letter |
| ChainObjects.Handle | DesignPatterns/codings/behavioral/chain_of_responsabilities/chain_of_responsability2.py:18-21 | a handler answers its own letters with its own text and otherwise returns exactly its successor's answer for the same letter; the fallback always answers; every answer ends with the letter |
| ChainObjects.Links | DesignPatterns/codings/behavioral/chain_of_responsabilities/chain_of_responsability2.py:13-37 | the handlers met by following `sucessor` from a handler: it comes first, and the fallback appears exactly once, at the end, so every chain ends in the fallback |
| ChainObjects.LinksFollowSucessor | DesignPatterns/codings/behavioral/chain_of_responsabilities/chain_of_responsability2.py:16-27 | each link after the first is the `sucessor` of the one before it |
| ChainObjects.FirstOwner | DesignPatterns/codings/behavioral/chain_of_responsabilities/chain_of_responsability2.py:18-37 | the position of the first link that handles the letter: no earlier link owns it, and the link there is the fallback or owns the letter |
| ChainObjects.FirstOwnerIsFallbackIff | DesignPatterns/codings/behavioral/chain_of_responsabilities/chain_of_responsability2.py:18-37 | the first handling link is the fallback exactly when no handler of the chain owns the letter |
| ChainObjects.HandleIsFirstOwner | DesignPatterns/codings/behavioral/chain_of_responsabilities/chain_of_responsability2.py:18-37 | the chain's answer is the text of the first link along the successors that handles the letter |
| ChainObjects.FallbackIff | DesignPatterns/codings/behavioral/chain_of_responsabilities/chain_of_responsability2.py:35-37 | the fallback text comes back exactly when no handler of the chain owns the letter |
| ChainObjects.DemoChainLetters | DesignPatterns/codings/behavioral/chain_of_responsabilities/chain_of_responsability2.py:42-44 | the driver's chain ABC→DEF→Fallback owns exactly A..F |
| ChainObjects.DemoChainAnswers | DesignPatterns/codings/behavioral/chain_of_responsabilities/chain_of_responsability2.py:13-44 | in the script's chain, A..C get HandlerABC's text, D..F HandlerDEF's, and every other letter the fallback's |
| ChainObjects.DriverOutputOwnedAbc | DesignPatterns/codings/behavioral/chain_of_responsabilities/chain_of_responsability2.py:41-47 | the driver's upper-cased letters A, B and C are each handled by HandlerABC, with its text followed by the letter |
| ChainObjects.DriverOutputOwnedDef | DesignPatterns/codings/behavioral/chain_of_responsabilities/chain_of_responsability2.py:41-47 | the driver's upper-cased letters D, E and F are each handled by HandlerDEF, with its text followed by the letter |
| ChainObjects.DriverOutputFallback | DesignPatterns/codings/behavioral/chain_of_responsabilities/chain_of_responsability2.py:41-47 | the driver's upper-cased letters G, H and I reach the fallback |
| ChainObjects.AgreesWithFunctionChain | DesignPatterns/codings/behavioral/chain_of_responsabilities/chain_of_responsability2.py:41-47 | the object chain and the function chain send the same letters to the fallback, with the same fallback text |
| SimpleFactoryFive.GetCarro | DesignPatterns/codings/creational/factory/simple_factory/simple_factory1.py:63-78 | a product is returned exactly when the lower-cased tag is one of the five tags, and its tag is the lower-cased input; any other tag fails the assertion with "O veículo {tipo} não existe!" |
| SimpleFactoryFive.BuscarCliente | DesignPatterns/codings/creational/factory/simple_factory/simple_factory1.py:38-60 | each product's `buscar_cliente` line is its vehicle name followed by " buscando cliente..." |
| SimpleFactoryFive.SelectsByLowerTag | DesignPatterns/codings/creational/factory/simple_factory/simple_factory1.py:66-76 | every spelling whose lower-case form is a product's tag yields that product |
| SimpleFactoryFive.TagRoundTrip | DesignPatterns/codings/creational/factory/simple_factory/simple_factory1.py:66-76 | asking for a product's own tag returns that product |
| SimpleFactoryFive.DistinctProducts | DesignPatterns/codings/creational/factory/simple_factory/simple_factory1.py:38-76 | distinct products have distinct tags and distinct `buscar_cliente` messages |
| SimpleFactoryFive.CaseInsensitive | DesignPatterns/codings/creational/factory/simple_factory/simple_factory1.py:66 | a tag and its lower-case form are accepted alike and give the same product |
| SimpleFactoryFive.ExampleWhole | DesignPatterns/codings/creational/factory/simple_factory/simple_factory1.py:71-74 | matching is whole-string: "moto_taxi" gives MotoTaxi |
| SimpleFactoryFive.ExampleUpper | DesignPatterns/codings/creational/factory/simple_factory/simple_factory1.py:66-68 | "LUXO" gives CarroLuxo |
| SimpleFactoryFive.ExampleMixed | DesignPatterns/codings/creational/factory/simple_factory/simple_factory1.py:66-76 | a mixed-case spelling, "Moto_Entrega", gives MotoEntrega |
| SimpleFactoryFive.Unknown | DesignPatterns/codings/creational/factory/simple_factory/simple_factory1.py:77-78 | a lower-case tag outside the five fails the assertion, and the message names that tag |
| SimpleFactoryFive.ExampleUnknown | DesignPatterns/codings/creational/factory/simple_factory/simple_factory1.py:77-78 | "moto" fails the assertion with its message |
| SimpleFactoryFive.MotoIsNoTag | DesignPatterns/codings/creational/factory/simple_factory/simple_factory1.py:66-78 | "moto" has no capitals and is none of the five tags, so it reaches the failing assertion |
| SimpleFactoryThree.GetCarro | DesignPatterns/codings/creational/factory/simple_factory1.py:53-64 | a product is returned exactly when the lower-cased tag is luxo, popular or moto_taxi, and its tag is the lower-cased input; otherwise the assertion fails |
| SimpleFactoryThree.SelectsByLowerTag | DesignPatterns/codings/creational/factory/simple_factory1.py:56-62 | every spelling whose lower-case form is a product's tag yields that product |
| SimpleFactoryThree.BuscarCliente | DesignPatterns/codings/creational/factory/simple_factory1.py:38-50 | each product's `buscar_cliente` line is its vehicle name followed by " buscando cliente..." |
| SimpleFactoryThree.DistinctProducts | DesignPatterns/codings/creational/factory/simple_factory1.py:38-62 | the three products have distinct tags and distinct messages |
| SimpleFactoryThree.TagRoundTrip | DesignPatterns/codings/creational/factory/simple_factory1.py:56-62 | a product's tag, in lower or upper case, returns that product |
| SimpleFactoryThree.RefinedByFive | DesignPatterns/codings/creational/factory/simple_factory1.py:53-64 | every tag this factory accepts is accepted by the five-product factory with the same product and message |
| SimpleFactoryThree.Unknown | DesignPatterns/codings/creational/factory/simple_factory1.py:63-64 | a lower-case tag outside the three fails the assertion |
| SimpleFactoryThree.MotoTaxiLuxoUnknown | DesignPatterns/codings/creational/factory/simple_factory1.py:63-64 | "moto_taxi_luxo" is rejected here though the five-product factory accepts it |
| SimpleFactoryThree.MotoTaxiLuxoKnownToFive | DesignPatterns/codings/creational/factory/simple_factory/simple_factory1.py:73-74 | the five-product factory accepts "moto_taxi_luxo", giving MotoTaxiLuxo |
| FactoryMethod.GetCarro | DesignPatterns/codings/creational/factory/factory_method/factory_method.py:48-69 | each zone returns a product exactly for its accepted tags, compared with `==`, luxo and popular giving the cars; any other tag fails with "Veículo não existe" |
| FactoryMethod.BuscarCliente | DesignPatterns/codings/creational/factory/factory_method/factory_method.py:15-32 | each product's `buscar_cliente` line is its vehicle name followed by " está buscando o cliente..." |
| FactoryMethod.FactoryBuscarCliente | DesignPatterns/codings/creational/factory/factory_method/factory_method.py:44-45 | the factory's `buscar_cliente` is the `buscar_cliente` of the product it stores |
| FactoryMethod.NewFactory | DesignPatterns/codings/creational/factory/factory_method/factory_method.py:35-37 | construction succeeds exactly for an accepted tag and stores the product `get_carro` creates |
| FactoryMethod.ConstructThenFetch | DesignPatterns/codings/creational/factory/factory_method/factory_method.py:35-45 | the factory's `buscar_cliente` is the stored product's message, unchanged |
| FactoryMethod.NorteTable | DesignPatterns/codings/creational/factory/factory_method/factory_method.py:50-58 | ZonaNorte maps luxo, popular, moto, moto_luxo to CarroLuxo, CarroPopular, MotoPopular, MotoLuxo |
| FactoryMethod.SulWithinNorte | DesignPatterns/codings/creational/factory/factory_method/factory_method.py:50-69 | ZonaSul's tags are a strict subset of ZonaNorte's, with the same products; "moto" fails in ZonaSul only |
| FactoryMethod.CaseSensitive | DesignPatterns/codings/creational/factory/factory_method/factory_method.py:50-69 | "LUXO" and "Popular" are rejected by both zones |
| FactoryMethod.DistinctMessages | DesignPatterns/codings/creational/factory/factory_method/factory_method.py:15-32 | the four products print distinct messages, MotoLuxo's being "Moto está buscando o cliente..." |
| TemplateMethodOne.HookLines | DesignPatterns/codings/behavioral/template_method/template_method1.py:28-29 | the inherited hook prints nothing |
| TemplateMethodOne.TemplateMethod | DesignPatterns/codings/behavioral/template_method/template_method1.py:19-26 | the run prints as many lines as the hook, operation1 and operation2 together, plus one; the base-class line sits right after the hook's and operation1's lines |
| TemplateMethodOne.TemplateMethodInOrder | DesignPatterns/codings/behavioral/template_method/template_method1.py:19-23 | each line comes from the step owning its position (hook, operation1, base_class_method, operation2), so the steps never go backwards |
| TemplateMethodOne.TemplateMethodLines | DesignPatterns/codings/behavioral/template_method/template_method1.py:19-29 | the printed lines are all of the hook's, then all of operation1's, the base-class line and all of operation2's |
| TemplateMethodOne.ConcreteClass1Output | DesignPatterns/codings/behavioral/template_method/template_method1.py:40-48 | ConcreteClass1 prints its hook line, then "Operação 1 concluída", the base line and "Operação 2 concluída" |
| TemplateMethodOne.ConcreteClass2Output | DesignPatterns/codings/behavioral/template_method/template_method1.py:51-56 | ConcreteClass2 prints exactly three lines, none from a hook |
| TemplateMethodOne.BaseLineBetweenOperations | DesignPatterns/codings/behavioral/template_method/template_method1.py:19-26 | the base-class line is the same for every subclass, printed once, with only hook and operation1 lines before it and only operation2 lines after it |
| TemplateMethodPizza.HookLines | DesignPatterns/codings/behavioral/template_method/template_method2.py:33-39 | an inherited hook prints nothing |
| TemplateMethodPizza.Prepare | DesignPatterns/codings/behavioral/template_method/template_method2.py:6-13 | a run prints the lines of both hooks, of add_ingredients and of cook, plus two; those last two are the cut and serve lines |
| TemplateMethodPizza.CutLine | DesignPatterns/codings/behavioral/template_method/template_method2.py:25-27 | the inherited `cut` prints "Contando a pizza " followed by the class name |
| TemplateMethodPizza.ServeLine | DesignPatterns/codings/behavioral/template_method/template_method2.py:29-31 | the inherited `serve` prints "Servindo a pizza " followed by the class name |
| TemplateMethodPizza.PrepareInOrder | DesignPatterns/codings/behavioral/template_method/template_method2.py:6-13 | each step sits at its fixed position and the steps never go backwards |
| TemplateMethodPizza.PrepareLines | DesignPatterns/codings/behavioral/template_method/template_method2.py:6-13 | the printed lines are the first hook's, the ingredients', the second hook's and the cooking lines, then cut and serve |
| TemplateMethodPizza.MandatorySkeleton | DesignPatterns/codings/behavioral/template_method/template_method2.py:6-13 | with the hook lines removed, a run is add_ingredients once per line it prints, then cook likewise, then one cut and one serve |
| TemplateMethodPizza.MandatoryKept | DesignPatterns/codings/behavioral/template_method/template_method2.py:15-23 | the lines of a step that is not a hook all survive the removal of hooks |
| TemplateMethodPizza.HookBeforeAdds | DesignPatterns/codings/behavioral/template_method/template_method2.py:33-35 | overriding the first hook only puts its lines in front of what the pizza printed without it |
| TemplateMethodPizza.PlainPizzaLines | DesignPatterns/codings/behavioral/template_method/template_method2.py:6-31 | a pizza without hooks whose two steps print one line each prints those two lines, then the cut and serve lines |
| TemplateMethodPizza.AModaCasaOutput | DesignPatterns/codings/behavioral/template_method/template_method2.py:42-50 | AModaCasa prints its four lines |
| TemplateMethodPizza.VeganOutput | DesignPatterns/codings/behavioral/template_method/template_method2.py:53-63 | Vegan prints five lines, "Vegan - Lavando ingredientes" from its hook immediately before its ingredients |
| TemplateMethodPizza.SameSkeleton | DesignPatterns/codings/behavioral/template_method/template_method2.py:4-39 | every pizza's mandatory steps end with cut and serve; pizzas whose add_ingredients and cook print as many lines run the same mandatory steps; with the same class name their last two lines coincide |
| TypeAnnotations.Range0To100 | codigos/typeannotations1.py:103-106 | x comes back unchanged exactly when 0 ≤ x ≤ 100; otherwise ValueError "fora de [0, 100]" |
| TypeAnnotations.BuscaUsuario | codigos/typeannotations1.py:67-69 | None exactly for the empty name, the name itself otherwise |
| TypeAnnotations.Autenticar | codigos/typeannotations1.py:98-100 | true exactly when "user" and "password" are both present with truthy values |
| TypeAnnotations.AutenticarExamples | codigos/typeannotations1.py:98-100 | non-empty user and password pass; an empty password or a missing one fails |
| TypeAnnotations.Primeiro | codigos/typeannotations1.py:158-159 | the first element, or IndexError exactly when the sequence is empty |
| TypeAnnotations.Caixa.GetItem | codigos/typeannotations1.py:173-174 | indexing succeeds exactly for -len ≤ i < len, counting negative indices from the end; IndexError otherwise |
| TypeAnnotations.Caixa.Len | codigos/typeannotations1.py:170-171 | `len()` of the box is the number of elements it was built from |
| TypeAnnotations.CaixaMirrorsInput | codigos/typeannotations1.py:167-174 | the box has the input's length and element i of the input at index i; `primeiro` of the box is its index 0 |
| TypeAnnotations.PrimeiroCaixaExample | codigos/typeannotations1.py:339-340 | `Caixa([10, 20, 30])[0]` and `primeiro` of that sequence are 10 |
| TypeAnnotations.Mapear | codigos/typeannotations1.py:177-178 | the result has the input's length and holds func of each element, in place |
| TypeAnnotations.MapearExample | codigos/typeannotations1.py:343 | `mapear(lambda z: z * 10, [1, 2, 3])` is [10, 20, 30] |
| TypeAnnotations.Duplica | codigos/typeannotations1.py:255-256 | element-wise doubling, length preserved |
| TypeAnnotations.Multiplica | codigos/typeannotations1.py:259-260 | element-wise multiplication by k, length preserved |
| TypeAnnotations.DuplicaIsMultiplicaTwo | codigos/typeannotations1.py:255-260 | doubling is multiplying by 2, and multiplying distributes over concatenation |
| TypeAnnotations.Contagem | codigos/typeannotations1.py:263-267 | max(n, 0) values, the i-th being i |
| TypeAnnotations.RunContagem | codigos/typeannotations1.py:263-267 | the while loop of the generator yields exactly `Contagem(n)` |
| TypeAnnotations.ContagemExample | codigos/typeannotations1.py:350 | `list(contagem(3))` is [0, 1, 2]; no values for n ≤ 0 |
| TypeAnnotations.FlatAppend | codigos/typeannotations1.py:270-272 | flattening distributes over concatenation of the outer sequence |
| TypeAnnotations.FlatLength | codigos/typeannotations1.py:270-272 | the flattened length is the sum of the inner lengths |
| TypeAnnotations.FlatCons | codigos/typeannotations1.py:270-272 | the first inner sequence comes out first, whole, before the rest |
| TypeAnnotations.RunFlat | codigos/typeannotations1.py:270-272 | the nested `for`/`yield from` loops yield exactly the concatenation of the inner sequences |
| TypeAnnotations.FlatExample | codigos/typeannotations1.py:351 | `list(flat([[1, 2], [3]]))` is [1, 2, 3] |
| TypeAnnotations.EcoStep | codigos/typeannotations1.py:275-280 | one next/send: "start" first; then "eco: " + message while not "stop"; "stop" returns "bye"; send before start is a TypeError; a finished generator raises StopIteration without value; "eco: stop" is never yielded |
| TypeAnnotations.RunEco | codigos/typeannotations1.py:275-280 | a session gets one reply per next/send; its first reply is that of one step; with nothing sent the generator is unchanged |
| TypeAnnotations.EcoNeverEchoesStop | codigos/typeannotations1.py:278-279 | over any session, "eco: stop" is never yielded |
| TypeAnnotations.EcoDoneIsFinal | codigos/typeannotations1.py:280 | a finished generator stays finished and only raises StopIteration |
| TypeAnnotations.EcoEchoes | codigos/typeannotations1.py:278-280 | messages other than "stop" are echoed in order, and a final "stop" ends with "bye" |
| TypeAnnotations.EcoDriver | codigos/typeannotations1.py:353-360 | the demo's session yields "start", "eco: oi", "eco: tudo bem", then returns "bye" |
| TypeAnnotations.Aniversaria | codigos/typeannotations1.py:314-316 | idade grows by exactly one, nome and sobrenome unchanged |
| TypeAnnotations.Fala | codigos/typeannotations1.py:310-312 | returns the same person, and the line it prints starts with the name |
| TypeAnnotations.FluentChain | codigos/typeannotations1.py:367-368 | `p.fala().aniversaria().fala()` leaves João at 22 |
| TypeAnnotations.Pinta | codigos/typeannotations1.py:217-225 | returns exactly for "red", "green" and "blue"; any other string reaches `assert_never`, which raises AssertionError "Expected code to be unreachable, but got: " followed by the repr of the value |
| TypeAnnotations.PintaExact | codigos/typeannotations1.py:217-225 | the three colours pass; "RED" fails with exactly that message; the empty string fails |
| TypeAnnotations.Aborta | codigos/typeannotations1.py:228-229 | never returns: it always raises RuntimeError carrying the message |
| TypeHints.Range0To100 | codigos/typehints1.py:175-178 | x comes back exactly when 0 ≤ x ≤ 100; otherwise ValueError "fora de [0,100]" |
| TypeHints.RangeValidatorsAgree | codigos/typehints1.py:175-178 | both guides' validators accept the same values and differ only in the error text |
| TypeHints.BuscaUsuario | codigos/typehints1.py:146-147 | None exactly for the empty name, the name otherwise |
| TypeHints.BuscaUsuarioAgrees | codigos/typehints1.py:146-147 | `nome if nome else None` equals the other guide's `nome or None` |
| TypeHints.Autenticar | codigos/typehints1.py:167-169 | always true, whatever the credentials |
| TypeHints.AutenticarAcceptsMore | codigos/typehints1.py:167-169 | it accepts whatever the other guide's check accepts, and also the empty dict, which that check rejects |
| TypeHints.Minimo | codigos/typehints1.py:256-257 | returns one of its arguments: a when a < b, b otherwise |
| TypeHints.MinimoIsLeast | codigos/typehints1.py:256-257 | on integers the result is at most both arguments |
| TypeHints.MinimoTieGoesToSecond | codigos/typehints1.py:256-257 | on a tie the second argument is returned |
| TypeHints.ListComprehensionsDriver | codigos/typehints1.py:347-352 | `duplica_sequencia(range(0, 6))` and `multiplica_iteravel(range(0, 6), 3)` give the driver's lists |
| TypeHints.ContagemDriver | codigos/typehints1.py:356-360 | `contagem(3)` yields [0, 1, 2], and `contagem(n)` yields max(n, 0) values |
| TypeHints.EcoDriver | codigos/typehints1.py:372-381 | the driver's session ends with "bye", and "stop" is never echoed in any session |
| TypeHints.AniversariaDriver | codigos/typehints1.py:422-424 | João turns 22; two birthdays add two years |
| Singleton.New | DesignPatterns/codings/creational/singleton/singleton1.py:7-14 | the first construction allocates a new object and stores it in `_instance`; every later one returns the stored object and changes nothing; forwarding arguments to `object.__new__` raises TypeError |
| Singleton.NewAll | DesignPatterns/codings/creational/singleton/singleton1.py:10-14 | a series of `AppSettings()` calls, stopping at the first that raises, keeps every existing object, leaves `_instance` set after any call, and never moves an `_instance` already set |
| Singleton.SetAttr | DesignPatterns/codings/creational/singleton/singleton1.py:26 | an attribute write changes only the written object, and `_instance` stays |
| Singleton.InstanceNeverChanges | DesignPatterns/codings/creational/singleton/singleton1.py:10-14 | once `_instance` is set, any series of constructions leaves the heap as it was |
| Singleton.SameObject | DesignPatterns/codings/creational/singleton/singleton1.py:18-24 | two constructions, whatever happens between them, give the same object |
| Singleton.Driver | DesignPatterns/codings/creational/singleton/singleton1.py:18-27 | `as1 is as2`, and `as1.nome = "Joao"` is read back through `as2` |
| Monostate.SetAttr | DesignPatterns/codings/creational/singleton/monostate.py:37 | a write goes to the dictionary the instance's `__dict__` points to and nowhere else |
| Monostate.New | DesignPatterns/codings/creational/singleton/monostate.py:23-32 | the new instance's `__dict__` is `_state`; its x = 0 and y = 0 went to a dictionary of its own that nothing points to; no other dictionary changes |
| Monostate.NewKeepsShared | DesignPatterns/codings/creational/singleton/monostate.py:17-26 | after any construction every instance still aliases `_state` |
| Monostate.NewSharedEffect | DesignPatterns/codings/creational/singleton/monostate.py:24-32 | construction sets nome and sobrenome in the shared state only when truthy, and leaves every other attribute, x and y included, as it was |
| Monostate.WriteVisibleEverywhere | DesignPatterns/codings/creational/singleton/monostate.py:36-38 | a write through one instance is read back through every instance |
| Monostate.InstancesIndistinguishable | DesignPatterns/codings/creational/singleton/monostate.py:26 | all instances read the same value for every attribute |
| Monostate.Driver | DesignPatterns/codings/creational/singleton/monostate.py:35-40 | after the driver both m1 and m2 show x = 20, y = 20, nome "Leo" and sobrenome "Fizza Now" |
| Prototype.NewPerson | DesignPatterns/codings/creational/prototype/prototype.py:29-32 | a new person, allocated before its new empty list, shows the given names and no addresses; existing objects are untouched |
| Prototype.NewAddress | DesignPatterns/codings/creational/prototype/prototype.py:42-44 | a new address object holding street and number |
| Prototype.AddAddress | DesignPatterns/codings/creational/prototype/prototype.py:34-35 | the person's list gets the address at its end; the person and every object other than the list are unchanged |
| Prototype.AddAddressAppends | DesignPatterns/codings/creational/prototype/prototype.py:34-35 | the person's addresses are the earlier ones followed by the new one, with the names kept |
| Prototype.SetFirstname | DesignPatterns/codings/creational/prototype/prototype.py:55 | assigning firstname changes that field of that object only |
| Prototype.SetFirstnameView | DesignPatterns/codings/creational/prototype/prototype.py:55 | renaming a person changes only the first name it shows; last name and addresses are kept |
| Prototype.CopyAddresses | DesignPatterns/codings/creational/prototype/prototype.py:13-38 | deepcopy of an address list gives one copy index per listed address |
| Prototype.CopyAddressesMemo | DesignPatterns/codings/creational/prototype/prototype.py:13-38 | deepcopy's memo stays consistent: each copied address is copied once, to its own new index, with equal fields; earlier entries are kept |
| Prototype.CopyAddressesItems | DesignPatterns/codings/creational/prototype/prototype.py:13-38 | each listed address is replaced by the copy its memo entry records, so a repeated address maps to the same copy |
| Prototype.CopyFromEmpty | DesignPatterns/codings/creational/prototype/prototype.py:13-38 | starting from an empty memo, only address copies are made, each item's copy equals it, and two items share a copy exactly when they are the same original |
| Prototype.Clone | DesignPatterns/codings/creational/prototype/prototype.py:37-38 | the clone is a person allocated after all existing objects, which stay unchanged |
| Prototype.CloneItems | DesignPatterns/codings/creational/prototype/prototype.py:37-38 | the clone keeps the names and gets a new list holding the memo's copies, each a new object equal to the address it copies |
| Prototype.CloneIsDeepCopy | DesignPatterns/codings/creational/prototype/prototype.py:13-38 | the clone, its list and its addresses are all new objects, and it shows the same names and address values as the original |
| Prototype.ClonePreservesAliasing | DesignPatterns/codings/creational/prototype/prototype.py:37-38 | two positions of the cloned list hold the same object exactly when the original list does |
| Prototype.CloneIsIndependent | DesignPatterns/codings/creational/prototype/prototype.py:54-56 | renaming the clone or adding an address to it leaves the original as it was |
| Prototype.UnchangedView | DesignPatterns/codings/creational/prototype/prototype.py:28-44 | what a person shows depends only on objects that later allocation does not change |
| Prototype.Driver | DesignPatterns/codings/creational/prototype/prototype.py:47-56 | João keeps his name and address after his clone is renamed "Ninguém"; the clone keeps "Justino" and the address |
| Prototype.Scenario | DesignPatterns/codings/creational/prototype/prototype.py:47-56 | the driver's steps, for any names and address: the original keeps its names and address after its clone is renamed, and the clone shows the new name with the same last name and address |
| Solid.Cozinhar | DesignPatterns/codings/solid/solid.py:23-30 | every cook's `cozinhar` names a potato dish, "Batata " first |
| Solid.Servir | DesignPatterns/codings/solid/solid.py:33-35 | the waiter's text is "Servindo: " followed by the dish |
| Solid.ServirMolho | DesignPatterns/codings/solid/solid.py:38-45 | `servir_molho` names the sauce, starting with a capital |
| Solid.ParseDishOf | DesignPatterns/codings/solid/solid.py:23-30 | no dish name is a prefix of another, so a dish at the head of a text determines its cook |
| Solid.ParseSauceOf | DesignPatterns/codings/solid/solid.py:38-45 | the sauce name determines the sauce |
| Solid.Pedido | DesignPatterns/codings/solid/solid.py:55-63 | an order is "Servindo: " + the dish + " com " + the sauce |
| Solid.PedidoRoundTrip | DesignPatterns/codings/solid/solid.py:55-63 | the order string can be parsed back into the cook and sauce that produced it |
| Solid.PedidoInjective | DesignPatterns/codings/solid/solid.py:55-63 | different restaurants place different orders |
| Solid.SwapSauceKeepsDish | DesignPatterns/codings/solid/solid.py:60-63 | swapping only the sauce leaves the order text up to " com " unchanged |
| Solid.DriverOrderFritaKetchup | DesignPatterns/codings/solid/solid.py:70-71 | Fritadeira, Garcom, Ketchup give "Servindo: Batata frita com Ketchup" |
| Solid.DriverOrderAssadaMaionese | DesignPatterns/codings/solid/solid.py:73-74 | Forno, Garcom, Maionese give "Servindo: Batata assada com Maionese" |
| Solid.DriverOrderFritaBarbecue | DesignPatterns/codings/solid/solid.py:77-82 | the local Barbecue sauce gives "Servindo: Batata frita com Barbecue" |
| Solid.DriverOrderPressaoKetchup | DesignPatterns/codings/solid/solid.py:86-95 | the local RoboCozinheiro gives "Servindo: Batata na pressão com Ketchup" |

## Left out

- Printing: each printed line is returned as a string or a trace event. The console itself is not modelled.
- Python.Lower / Python.Upper: non-ASCII case mapping is not modelled; `str.lower()` and `str.upper()` are modelled on ASCII letters only. This is exact for every tag the factories accept, because none contains the letter `k`. U+212A KELVIN SIGN is the one non-ASCII character that Python lower-cases to an ASCII letter, namely `k`.
- The simple factories' `random.choice` drivers and the factory method's random driver: randomness. The tables they draw from are covered by the all-input lemmas.
- Runtime type checks: `Credenciais` is modelled as a dictionary from keys to values. `Minimo` takes the `<` it uses as a parameter. Python's static typing (`TypedDict`, `Protocol`, `Literal`, `NewType`, `Annotated`) has no runtime behaviour to model. `assert_never` does: it raises, and `TypeAnnotations.Pinta` models that.
- `Caixa`: only its constructor, `__len__` and `__getitem__` with integer indices are modelled. Slices and the mixin methods that `Sequence` supplies (`index`, `count`, `__contains__`, `__iter__`) are not.
- Left out from `codigos/typeannotations1.py`:
  - `carregar`: file I/O.
  - `logger` / `soma`: print and delegate.
  - `gen_async`, `recurso` and `recurso_async`: async and context-manager machinery.
  - `abrir_caminho` and `registrar_score`: they return None.
  - `com_ctx`: the identity.
  - `tamanho`: `len()`.
  - `so_str`: relies on `str()` of arbitrary objects.
  - `Documento.salvar` / `persistir` and `processa_evento`: they only print.
- Left out from `codigos/typehints1.py`, for the same reasons:
  - `carrega`, `logger`, `com_ctx`, `so_str`, `processa`, `tamanho`;
  - `abrir_caminho`, `usa_sql`, `usa_usuario`, `registra_score`, `Config`;
  - `Documento` / `persistir`, `gen_async`, `recurso` and `recurso_async`;
  - the one-field generic `Caixa` with its `get`.
  - Its `primeiro` (lines 244-245) has the same body as the other guide's, which `TypeAnnotations.Primeiro` models.
  - Its `pinta` and `aborta` (lines 312-324) have the same bodies as the other guide's, which `TypeAnnotations.Pinta` and `TypeAnnotations.Aborta` model.
- `StringReprMixin.__str__` / `StringReprMixing.__str__`: they depend on `__dict__` reflection and on dictionary insertion order. The model states what a person shows as the value `Prototype.View` instead.
- TypeAnnotations.Pinta: only string arguments are modelled, and the repr of a string is modelled as the string between single quotes. Python's choice of quotes is not modelled: a string containing `'` and no `"` is shown between double quotes, as `"it's"`. Python's escaping inside the repr, and its shortening of long reprs in the `assert_never` message, are not modelled either.
- TypeAnnotations.Aniversaria: `aniversaria` mutates `self.idade` and returns `self`. The model returns the updated value instead, so aliasing of a `Pessoa` between two names is not modelled.
- Assertions are assumed enabled. Under `python -O`, the `assert 0` of each `get_carro` is skipped and the function returns None instead of raising; the model keeps the AssertionError.
- TypeAnnotations.Fala: `Pessoa.fala` prints its line. `Fala` returns that line, and the model states only that it starts with the name.
- `strategy.py`: its discounts are floating-point arithmetic.
- `open_closed_principle.py`, `dependency_inversion_principle.py`, `liskov_substitution_principle.py`, `interface_segregation _principle.py` and `single_responsibility _principle.py` are not part of this model. They repeat the delegation that `Solid` models, or only print.
- ChainObjects.Handle: chains are finite and every `sucessor` is a handler. Python also accepts `HandleDEF(None)`, whose `handle` then raises AttributeError for a letter it does not own, and a cycle made by assigning `sucessor` after construction; neither is modelled.
- TemplateMethodOne.TemplateMethod / TemplateMethodPizza.Prepare: `base_class_method`, `cut` and `serve` are modelled as never overridden. Python lets a subclass override them; the model fixes their lines.
- TypeAnnotations.Mapear: `func` is modelled as a total, pure function. A `func` that raises or prints is not modelled.
- Concurrency: the singleton and the monostate are modelled single-threaded. The code does nothing about concurrent construction.
- The heap model: objects are indices into a sequence and are never freed. Garbage collection and `id()` values other than identity are not modelled.
- Singleton.New: models `if not cls._instance` as a test for `None`, since an `AppSettings` object is always truthy.
- Prototype.Clone: copies only heaps in which a person's list holds `Address` objects, which is what `add_address`'s annotation asks for. A list holding arbitrary objects, including a cycle back to the person, is not modelled.
- Solid.Pedido: `Garcom` is the only waiter. The waiter is an interface, but the source defines no other implementation.
