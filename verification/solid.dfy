/**
 The restaurant of DesignPatterns/codings/solid/solid.py. A `Restaurante` is
 built from one cook, one waiter and one sauce, each a closed family of
 variants with a single capability; `pedido` composes their outputs into
 "Servindo: <dish> com <sauce>". The driver's local `Barbecue` sauce and
 `RoboCozinheiro` cook are included as variants.
 */
module Solid {
  import opened Python

  datatype Cozinha = Fritadeira | Forno | RoboCozinheiro
  datatype Garcom = Garcom
  datatype Molho = Ketchup | Maionese | Barbecue

  /** `cozinhar()`: every cook makes a potato dish. */
  function Cozinhar(c: Cozinha): (dish: string)
    ensures StartsWith(dish, "Batata ")
  {
    match c
    case Fritadeira => "Batata frita"
    case Forno => "Batata assada"
    case RoboCozinheiro => "Batata na pressão"
  }

  const ServingPrefix := "Servindo: "

  /** `Garcom.servir(prato)`: the dish, announced. */
  function Servir(g: Garcom, prato: string): (r: string)
    ensures StartsWith(r, ServingPrefix) && r[|ServingPrefix|..] == prato
  {
    ServingPrefix + prato
  }

  /** `servir_molho()`: a capitalised sauce name. */
  function ServirMolho(m: Molho): (sauce: string)
    ensures |sauce| > 0 && IsUpper(sauce[0])
  {
    match m
    case Ketchup => "Ketchup"
    case Maionese => "Maionese"
    case Barbecue => "Barbecue"
  }

  datatype Restaurante = Restaurante(cozinha: Cozinha, garcom: Garcom, molho: Molho)

  const Separator := " com "

  /** `pedido()`: the waiter serves the cook's dish, then the sauce is named. */
  function Pedido(r: Restaurante): (order: string)
    ensures order == ServingPrefix + Cozinhar(r.cozinha) + Separator + ServirMolho(r.molho)
  {
    var prato := Cozinhar(r.cozinha);
    var servido := Servir(r.garcom, prato);
    servido + Separator + ServirMolho(r.molho)
  }

  /** Reads an order string back into the components that produced it. */
  function ParsePedido(order: string): Option<Restaurante> {
    if !StartsWith(order, ServingPrefix) then None
    else
      var dish := ParseDish(order[|ServingPrefix|..]);
      if dish.None? || !StartsWith(dish.value.1, Separator) then None
      else
        var sauce := ParseSauce(dish.value.1[|Separator|..]);
        if sauce.None? then None else Some(Restaurante(dish.value.0, Garcom, sauce.value))
  }

  function ParseDish(s: string): Option<(Cozinha, string)> {
    if StartsWith(s, Cozinhar(Fritadeira)) then Some((Fritadeira, s[|Cozinhar(Fritadeira)|..]))
    else if StartsWith(s, Cozinhar(Forno)) then Some((Forno, s[|Cozinhar(Forno)|..]))
    else if StartsWith(s, Cozinhar(RoboCozinheiro)) then Some((RoboCozinheiro, s[|Cozinhar(RoboCozinheiro)|..]))
    else None
  }

  function ParseSauce(s: string): Option<Molho> {
    if s == ServirMolho(Ketchup) then Some(Ketchup)
    else if s == ServirMolho(Maionese) then Some(Maionese)
    else if s == ServirMolho(Barbecue) then Some(Barbecue)
    else None
  }

  /** The dish text names its cook: no dish is a prefix of another. */
  lemma ParseDishOf(c: Cozinha, tail: string)
    ensures ParseDish(Cozinhar(c) + tail) == Some((c, tail))
  {
    var s := Cozinhar(c) + tail;
    SplitAt(Cozinhar(c), tail);
    match c
    case Fritadeira =>
    case Forno =>
      assert s[7] == 'a';
    case RoboCozinheiro =>
      assert s[7] == 'n';
  }

  /** The sauce text names its sauce. */
  lemma ParseSauceOf(m: Molho)
    ensures ParseSauce(ServirMolho(m)) == Some(m)
  {
  }

  /** The order string determines the kitchen and the sauce that produced it. */
  lemma {:induction false} PedidoRoundTrip(r: Restaurante)
    ensures ParsePedido(Pedido(r)) == Some(r)
  {
    var sauce := ServirMolho(r.molho);
    var after := Separator + sauce;
    var rest := Cozinhar(r.cozinha) + after;
    assert Pedido(r) == ServingPrefix + rest;
    SplitAt(ServingPrefix, rest);
    ParseDishOf(r.cozinha, after);
    SplitAt(Separator, sauce);
    ParseSauceOf(r.molho);
    assert r.garcom == Garcom;
  }

  /** Different restaurants place different orders: changing one component
      changes the order string. */
  lemma PedidoInjective(r: Restaurante, s: Restaurante)
    ensures Pedido(r) == Pedido(s) ==> r == s
  {
    PedidoRoundTrip(r);
    PedidoRoundTrip(s);
  }

  /** Swapping only the sauce keeps everything up to and including " com ". */
  lemma SwapSauceKeepsDish(r: Restaurante, m: Molho)
    ensures var k := |ServingPrefix + Cozinhar(r.cozinha) + Separator|;
      Pedido(r)[..k] == Pedido(r.(molho := m))[..k]
  {
  }

  /** The four orders of the driver. */
  lemma DriverOrderFritaKetchup()
    ensures Pedido(Restaurante(Fritadeira, Garcom, Ketchup)) == "Servindo: Batata frita com Ketchup"
  {
    assert ServingPrefix + "Batata frita" == "Servindo: Batata frita";
    assert "Servindo: Batata frita" + Separator == "Servindo: Batata frita com ";
  }

  lemma DriverOrderAssadaMaionese()
    ensures Pedido(Restaurante(Forno, Garcom, Maionese)) == "Servindo: Batata assada com Maionese"
  {
    assert ServingPrefix + "Batata assada" == "Servindo: Batata assada";
    assert "Servindo: Batata assada" + Separator == "Servindo: Batata assada com ";
  }

  lemma DriverOrderFritaBarbecue()
    ensures Pedido(Restaurante(Fritadeira, Garcom, Barbecue)) == "Servindo: Batata frita com Barbecue"
  {
    assert ServingPrefix + "Batata frita" == "Servindo: Batata frita";
    assert "Servindo: Batata frita" + Separator == "Servindo: Batata frita com ";
  }

  lemma DriverOrderPressaoKetchup()
    ensures Pedido(Restaurante(RoboCozinheiro, Garcom, Ketchup)) == "Servindo: Batata na pressão com Ketchup"
  {
    assert ServingPrefix + "Batata na pressão" == "Servindo: Batata na pressão";
    assert "Servindo: Batata na pressão" + Separator == "Servindo: Batata na pressão com ";
  }
}
