/**
 Factory method with two regional factories
 (creational/factory/factory_method/factory_method.py).
 The factories compare the tag with `==` and no normalisation; the south
 zone knows fewer vehicles than the north zone. Constructing a factory
 builds its vehicle once, and `buscar_cliente` delegates to that vehicle.
 */
module FactoryMethod {
  import opened Python

  datatype Veiculo = CarroLuxo | CarroPopular | MotoLuxo | MotoPopular

  /** What each vehicle calls itself in its `buscar_cliente` line. */
  function Vehicle(v: Veiculo): string {
    match v
    case CarroLuxo => "Carro de luxo"
    case CarroPopular => "Carro popular"
    case MotoLuxo => "Moto"
    case MotoPopular => "Moto popular"
  }

  const Fetching := " está buscando o cliente..."

  /** The one capability of every product, `buscar_cliente`: the vehicle's
      name, then that it is fetching the client. */
  function BuscarCliente(v: Veiculo): (line: string)
    ensures StartsWith(line, Vehicle(v)) && line[|Vehicle(v)|..] == Fetching
  {
    SplitAt(Vehicle(v), Fetching);
    Vehicle(v) + Fetching
  }

  /** `ZonaNorteVeiculoFactory` and `ZonaSulVeiculoFactory` */
  datatype Zona = ZonaNorte | ZonaSul

  const NotFound := AssertionError("Veículo não existe")

  /** The tags each zone's `get_carro` accepts. */
  function Accepted(z: Zona): set<string> {
    match z
    case ZonaNorte => {"luxo", "popular", "moto", "moto_luxo"}
    case ZonaSul => {"luxo", "popular"}
  }

  /** The static `get_carro` of each zone's factory. */
  function GetCarro(z: Zona, tipo: string): (r: Result<Veiculo>)
    ensures r.Ok? <==> tipo in Accepted(z)
    ensures r.Raise? ==> r.error == NotFound
    ensures tipo == "luxo" ==> r == Ok(CarroLuxo)
    ensures tipo == "popular" ==> r == Ok(CarroPopular)
  {
    match z
    case ZonaNorte =>
      if tipo == "luxo" then Ok(CarroLuxo)
      else if tipo == "popular" then Ok(CarroPopular)
      else if tipo == "moto" then Ok(MotoPopular)
      else if tipo == "moto_luxo" then Ok(MotoLuxo)
      else Raise(NotFound)
    case ZonaSul =>
      if tipo == "luxo" then Ok(CarroLuxo)
      else if tipo == "popular" then Ok(CarroPopular)
      else Raise(NotFound)
  }

  /** An instance of a zone's factory: the vehicle built by its constructor. */
  datatype VeiculoFactory = VeiculoFactory(zona: Zona, carro: Veiculo)

  /** `ZonaXVeiculoFactory(tipo)`: `__init__` stores `get_carro(tipo)`, and
      fails exactly when `get_carro` does. */
  function NewFactory(z: Zona, tipo: string): (r: Result<VeiculoFactory>)
    ensures r.Ok? <==> tipo in Accepted(z)
    ensures r.Ok? ==> r.value.zona == z && Ok(r.value.carro) == GetCarro(z, tipo)
    ensures r.Raise? ==> r.error == NotFound
  {
    match GetCarro(z, tipo)
    case Ok(v) => Ok(VeiculoFactory(z, v))
    case Raise(e) => Raise(e)
  }

  /** The factory's `buscar_cliente` forwards to the stored vehicle. */
  function FactoryBuscarCliente(f: VeiculoFactory): (line: string)
    ensures line == BuscarCliente(f.carro)
  {
    BuscarCliente(f.carro)
  }

  /** Constructing a factory and asking it to fetch a client prints the line of
      the vehicle `get_carro` makes for that tag. */
  lemma ConstructThenFetch(z: Zona, tipo: string)
    requires tipo in Accepted(z)
    ensures NewFactory(z, tipo).Ok?
    ensures FactoryBuscarCliente(NewFactory(z, tipo).value) == BuscarCliente(GetCarro(z, tipo).value)
  {
  }

  /** The north zone's full table. */
  lemma NorteTable()
    ensures GetCarro(ZonaNorte, "luxo") == Ok(CarroLuxo)
    ensures GetCarro(ZonaNorte, "popular") == Ok(CarroPopular)
    ensures GetCarro(ZonaNorte, "moto") == Ok(MotoPopular)
    ensures GetCarro(ZonaNorte, "moto_luxo") == Ok(MotoLuxo)
  {
  }

  /** The south zone accepts a strict subset of the north zone's tags, and on
      that subset both build the same vehicle; `moto` is north-only. */
  lemma SulWithinNorte(tipo: string)
    ensures Accepted(ZonaSul) < Accepted(ZonaNorte)
    ensures GetCarro(ZonaSul, tipo).Ok? ==> GetCarro(ZonaNorte, tipo) == GetCarro(ZonaSul, tipo)
    ensures GetCarro(ZonaSul, "moto") == Raise(NotFound)
    ensures GetCarro(ZonaNorte, "moto").Ok?
  {
    assert "moto" in Accepted(ZonaNorte) - Accepted(ZonaSul);
  }

  /** No normalisation: an upper-case tag is unknown to both zones. */
  lemma CaseSensitive(z: Zona)
    ensures GetCarro(z, "LUXO") == Raise(NotFound)
    ensures GetCarro(z, "Popular") == Raise(NotFound)
  {
    assert "LUXO" !in Accepted(z);
    assert "Popular" !in Accepted(z);
  }

  /** Four vehicles, four distinct lines; the luxury motorbike's line does not
      say "luxo". */
  lemma DistinctMessages(v: Veiculo, w: Veiculo)
    ensures v != w ==> BuscarCliente(v) != BuscarCliente(w)
    ensures BuscarCliente(MotoLuxo) == "Moto está buscando o cliente..."
  {
  }
}
