/**
 The three-vehicle simple factory (creational/factory/simple_factory1.py):
 same shape as the five-vehicle one, but only `luxo`, `popular` and
 `moto_taxi` are known, so `moto_taxi_luxo` fails here.
 */
module SimpleFactoryThree {
  import opened Python
  import SimpleFactoryFive

  datatype Veiculo = CarroLuxo | CarroPopular | MotoTaxi

  /** What each vehicle calls itself in its `buscar_cliente` line. */
  function Vehicle(v: Veiculo): string {
    match v
    case CarroLuxo => "Carro de luxo"
    case CarroPopular => "Carro popular"
    case MotoTaxi => "Moto taxi"
  }

  const Fetching := " buscando cliente..."

  /** The one capability of every product, `buscar_cliente`: the vehicle's
      name, then that it is fetching the client. */
  function BuscarCliente(v: Veiculo): (line: string)
    ensures StartsWith(line, Vehicle(v)) && line[|Vehicle(v)|..] == Fetching
  {
    SplitAt(Vehicle(v), Fetching);
    Vehicle(v) + Fetching
  }

  function Tag(v: Veiculo): string {
    match v
    case CarroLuxo => "luxo"
    case CarroPopular => "popular"
    case MotoTaxi => "moto_taxi"
  }

  const Tags: set<string> := {"luxo", "popular", "moto_taxi"}

  function NotFound(tipo: string): Exception {
    AssertionError("O veículo " + tipo + " não existe!")
  }

  /** `get_carro(tipo)` */
  function GetCarro(tipo: string): (r: Result<Veiculo>)
    ensures r.Ok? <==> Lower(tipo) in Tags
    ensures r.Ok? ==> Tag(r.value) == Lower(tipo)
    ensures r.Raise? ==> r.error == NotFound(tipo)
  {
    match Lower(tipo)
    case "luxo" => Ok(CarroLuxo)
    case "popular" => Ok(CarroPopular)
    case "moto_taxi" => Ok(MotoTaxi)
    case _ => Raise(NotFound(tipo))
  }

  lemma DistinctProducts(v: Veiculo, w: Veiculo)
    ensures v != w ==> Tag(v) != Tag(w)
    ensures v != w ==> BuscarCliente(v) != BuscarCliente(w)
  {
  }

  lemma SelectsByLowerTag(tipo: string, v: Veiculo)
    requires Lower(tipo) == Tag(v)
    ensures GetCarro(tipo) == Ok(v)
  {
    var r := GetCarro(tipo);
    assert Tag(v) in Tags;
    DistinctProducts(r.value, v);
  }

  /** Each product is produced by its own tag, whatever its case. */
  lemma TagRoundTrip(v: Veiculo)
    ensures GetCarro(Tag(v)) == Ok(v)
    ensures GetCarro(Upper(Tag(v))) == Ok(v)
  {
    var t := Tag(v);
    assert NoUpper(t);
    LowerFixesNoUpper(t);
    SelectsByLowerTag(t, v);
    LowerUpperRoundTrip(t);
    SelectsByLowerTag(Upper(t), v);
  }

  /** The same product of the five-vehicle factory. */
  function Embed(v: Veiculo): SimpleFactoryFive.Veiculo {
    match v
    case CarroLuxo => SimpleFactoryFive.CarroLuxo
    case CarroPopular => SimpleFactoryFive.CarroPopular
    case MotoTaxi => SimpleFactoryFive.MotoTaxi
  }

  /** Every tag this factory accepts, the five-vehicle factory accepts too, with
      the same product and the same message. */
  lemma RefinedByFive(tipo: string)
    requires GetCarro(tipo).Ok?
    ensures SimpleFactoryFive.GetCarro(tipo) == Ok(Embed(GetCarro(tipo).value))
    ensures BuscarCliente(GetCarro(tipo).value) == SimpleFactoryFive.BuscarCliente(Embed(GetCarro(tipo).value))
  {
    var v := GetCarro(tipo).value;
    assert Lower(tipo) == SimpleFactoryFive.Tag(Embed(v));
    SimpleFactoryFive.SelectsByLowerTag(tipo, Embed(v));
  }

  lemma Unknown(tipo: string)
    requires NoUpper(tipo) && tipo !in Tags
    ensures GetCarro(tipo) == Raise(NotFound(tipo))
  {
    LowerFixesNoUpper(tipo);
  }

  /** `moto_taxi_luxo` is known only to the five-vehicle factory. */
  lemma MotoTaxiLuxoUnknown()
    ensures GetCarro("moto_taxi_luxo") == Raise(NotFound("moto_taxi_luxo"))
  {
    assert NoUpper("moto_taxi_luxo");
    Unknown("moto_taxi_luxo");
  }

  lemma MotoTaxiLuxoKnownToFive()
    ensures SimpleFactoryFive.GetCarro("moto_taxi_luxo") == Ok(SimpleFactoryFive.MotoTaxiLuxo)
  {
    SimpleFactoryFive.TagRoundTrip(SimpleFactoryFive.MotoTaxiLuxo);
  }
}
