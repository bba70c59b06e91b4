/**
 The five-vehicle simple factory
 (creational/factory/simple_factory/simple_factory1.py).
 `VeiculoFactory.get_carro` lower-cases the tag and matches it whole against
 five literals; any other tag fails an assertion naming the original tag.
 */
module SimpleFactoryFive {
  import opened Python

  datatype Veiculo = CarroLuxo | CarroPopular | MotoTaxi | MotoTaxiLuxo | MotoEntrega

  /** What each vehicle calls itself in its `buscar_cliente` line. */
  function Vehicle(v: Veiculo): string {
    match v
    case CarroLuxo => "Carro de luxo"
    case CarroPopular => "Carro popular"
    case MotoTaxi => "Moto taxi"
    case MotoTaxiLuxo => "Moto taxi luxo"
    case MotoEntrega => "Moto entrega"
  }

  const Fetching := " buscando cliente..."

  /** The one capability of every product, `buscar_cliente`: the vehicle's
      name, then that it is fetching the client. */
  function BuscarCliente(v: Veiculo): (line: string)
    ensures StartsWith(line, Vehicle(v)) && line[|Vehicle(v)|..] == Fetching
  {
    SplitAt(Vehicle(v), Fetching);
    Vehicle(v) + Fetching
  }

  /** The `case` literal that selects each product. */
  function Tag(v: Veiculo): string {
    match v
    case CarroLuxo => "luxo"
    case CarroPopular => "popular"
    case MotoTaxi => "moto_taxi"
    case MotoTaxiLuxo => "moto_taxi_luxo"
    case MotoEntrega => "moto_entrega"
  }

  const Tags: set<string> := {"luxo", "popular", "moto_taxi", "moto_taxi_luxo", "moto_entrega"}

  function NotFound(tipo: string): Exception {
    AssertionError("O veículo " + tipo + " não existe!")
  }

  /** `get_carro(tipo)`: the product whose tag is `tipo.lower()`, or the failed assertion. */
  function GetCarro(tipo: string): (r: Result<Veiculo>)
    ensures r.Ok? <==> Lower(tipo) in Tags
    ensures r.Ok? ==> Tag(r.value) == Lower(tipo)
    ensures r.Raise? ==> r.error == NotFound(tipo)
  {
    match Lower(tipo)
    case "luxo" => Ok(CarroLuxo)
    case "popular" => Ok(CarroPopular)
    case "moto_taxi" => Ok(MotoTaxi)
    case "moto_taxi_luxo" => Ok(MotoTaxiLuxo)
    case "moto_entrega" => Ok(MotoEntrega)
    case _ => Raise(NotFound(tipo))
  }

  lemma TagsAreLowerCase(v: Veiculo)
    ensures Lower(Tag(v)) == Tag(v)
  {
    LowerFixesNoUpper(Tag(v));
  }

  /** The factory selects by the lower-cased tag alone. */
  lemma SelectsByLowerTag(tipo: string, v: Veiculo)
    requires Lower(tipo) == Tag(v)
    ensures GetCarro(tipo) == Ok(v)
  {
    var r := GetCarro(tipo);
    assert Tag(v) in Tags;
    DistinctProducts(r.value, v);
  }

  /** Each product is produced by its own tag: the factory inverts `Tag`. */
  lemma TagRoundTrip(v: Veiculo)
    ensures GetCarro(Tag(v)) == Ok(v)
  {
    TagsAreLowerCase(v);
    SelectsByLowerTag(Tag(v), v);
  }

  /** The five tags give five distinct products with five distinct messages. */
  lemma DistinctProducts(v: Veiculo, w: Veiculo)
    ensures v != w ==> Tag(v) != Tag(w)
    ensures v != w ==> BuscarCliente(v) != BuscarCliente(w)
  {
  }

  /** Matching ignores case: a tag and its lower-case form select the same
      product or both fail (with messages naming the tag as given). */
  lemma CaseInsensitive(tipo: string)
    ensures GetCarro(tipo).Ok? <==> GetCarro(Lower(tipo)).Ok?
    ensures GetCarro(tipo).Ok? ==> GetCarro(tipo) == GetCarro(Lower(tipo))
  {
    LowerIdempotent(tipo);
    var r := GetCarro(tipo);
    if r.Ok? {
      SelectsByLowerTag(Lower(tipo), r.value);
    }
  }

  /** Matching is whole-string, and upper-case tags are accepted. */
  lemma ExampleWhole()
    ensures GetCarro("moto_taxi") == Ok(MotoTaxi)
  {
    TagRoundTrip(MotoTaxi);
  }

  lemma ExampleUpper()
    ensures GetCarro("LUXO") == Ok(CarroLuxo)
  {
    LowerPointwise("LUXO", "luxo");
    SelectsByLowerTag("LUXO", CarroLuxo);
  }

  lemma ExampleMixed()
    ensures GetCarro("Moto_Entrega") == Ok(MotoEntrega)
  {
    LowerPointwise("Moto_Entrega", "moto_entrega");
    SelectsByLowerTag("Moto_Entrega", MotoEntrega);
  }

  /** A tag without capitals that is not one of the five fails, naming itself. */
  lemma Unknown(tipo: string)
    requires NoUpper(tipo) && tipo !in Tags
    ensures GetCarro(tipo) == Raise(NotFound(tipo))
  {
    LowerFixesNoUpper(tipo);
  }

  lemma ExampleUnknown()
    ensures GetCarro("moto") == Raise(AssertionError("O veículo moto não existe!"))
  {
    MotoIsNoTag();
    Unknown("moto");
  }

  /** "moto" is lower-case and none of the five tags. */
  lemma MotoIsNoTag()
    ensures NoUpper("moto") && "moto" !in Tags
  {
    assert "moto"[0] != "luxo"[0];
  }
}
