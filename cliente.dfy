/** `ClienteComponent`: the customer's cart and checkout. The cart is a
    list of product snapshots with a quantity, kept with distinct product
    ids; confirming it puts a `pendiente` order in front of the order list
    and empties the cart. */
module Cliente {
  import opened Base
  import opened Auth

  /** A catalogue product; prices are whole amounts. */
  datatype Producto = Producto(id: string, nombre: string, descripcion: string, precio: int,
                               categoria: string, imagen: string)

  /** A cart line: the product as it was added, and how many. */
  datatype CarritoItem = CarritoItem(producto: Producto, cantidad: nat)

  /** The four order states. */
  datatype Estado = Pendiente | EnPreparacion | Listo | Entregado

  /** An order; its creation date is not modelled. */
  datatype Pedido = Pedido(id: string, estado: Estado, total: int, items: seq<CarritoItem>)

  /** What one line adds to the total. */
  function Subtotal(item: CarritoItem): int
  {
    item.producto.precio * item.cantidad
  }

  /** The `reduce` of `calcularTotal`: a left fold of the subtotals
      starting from 0. */
  function Total(items: seq<CarritoItem>): int
  {
    if |items| == 0 then 0 else Total(items[..|items| - 1]) + Subtotal(items[|items| - 1])
  }

  /** The total of two carts put together is the sum of their totals. */
  lemma {:induction false} TotalConcatenacion(a: seq<CarritoItem>, b: seq<CarritoItem>)
    ensures Total(a + b) == Total(a) + Total(b)
    decreases |b|
  {
    if |b| == 0 {
      assert a + b == a;
    } else {
      var previo := b[..|b| - 1];
      assert (a + b)[..|a + b| - 1] == a + previo;
      assert (a + b)[|a + b| - 1] == b[|b| - 1];
      TotalConcatenacion(a, previo);
    }
  }

  /** With no negative price the total is never negative. */
  lemma {:induction false} TotalNoNegativo(items: seq<CarritoItem>)
    ensures (forall k :: 0 <= k < |items| ==> items[k].producto.precio >= 0) ==> Total(items) >= 0
    decreases |items|
  {
    if |items| > 0 {
      TotalNoNegativo(items[..|items| - 1]);
    }
  }

  /** Appending a line adds its subtotal to the total. */
  lemma TotalAgregar(items: seq<CarritoItem>, item: CarritoItem)
    ensures Total(items + [item]) == Total(items) + Subtotal(item)
  {
    assert (items + [item])[..|items|] == items;
  }

  /** A cart split around one line totals the two sides plus that line. */
  lemma TotalAlrededor(antes: seq<CarritoItem>, item: CarritoItem, despues: seq<CarritoItem>)
    ensures Total(antes + [item] + despues) == Total(antes) + Subtotal(item) + Total(despues)
  {
    TotalConcatenacion(antes + [item], despues);
    assert (antes + [item])[..|antes|] == antes;
  }

  /** Replacing one line changes the total by the difference of the two
      subtotals. */
  lemma TotalReemplazo(items: seq<CarritoItem>, i: nat, nuevo: CarritoItem)
    requires i < |items|
    ensures Total(items[i := nuevo]) == Total(items) - Subtotal(items[i]) + Subtotal(nuevo)
  {
    var antes, despues := items[..i], items[i + 1..];
    assert items == antes + [items[i]] + despues;
    assert items[i := nuevo] == antes + [nuevo] + despues;
    TotalAlrededor(antes, items[i], despues);
    TotalAlrededor(antes, nuevo, despues);
  }

  /** Removing one line takes its subtotal off the total. */
  lemma TotalSinLinea(antes: seq<CarritoItem>, item: CarritoItem, despues: seq<CarritoItem>)
    ensures Total(antes + despues) == Total(antes + [item] + despues) - Subtotal(item)
  {
    TotalAlrededor(antes, item, despues);
    TotalConcatenacion(antes, despues);
  }

  /** `carrito.find(item => item.id === id)`, as the index of the line it
      finds, searching from `desde` on. */
  function BuscarDesde(carrito: seq<CarritoItem>, id: string, desde: nat): (i: Option<nat>)
    requires desde <= |carrito|
    ensures i.Some? ==> desde <= i.value < |carrito| && carrito[i.value].producto.id == id
    ensures i.Some? ==> forall j :: desde <= j < i.value ==> carrito[j].producto.id != id
    ensures i.None? ==> forall j :: desde <= j < |carrito| ==> carrito[j].producto.id != id
    decreases |carrito| - desde
  {
    if desde == |carrito| then None
    else if carrito[desde].producto.id == id then Some(desde)
    else BuscarDesde(carrito, id, desde + 1)
  }

  /** The first line of the cart with product id `id`, if any. */
  function Buscar(carrito: seq<CarritoItem>, id: string): (i: Option<nat>)
    ensures i.Some? ==> i.value < |carrito| && carrito[i.value].producto.id == id
    ensures i.Some? ==> forall j :: 0 <= j < i.value ==> carrito[j].producto.id != id
    ensures i.None? <==> forall j :: 0 <= j < |carrito| ==> carrito[j].producto.id != id
  {
    BuscarDesde(carrito, id, 0)
  }

  /** No two lines of the cart hold the same product. */
  predicate IdsDistintos(carrito: seq<CarritoItem>)
  {
    forall i, j :: 0 <= i < j < |carrito| ==> carrito[i].producto.id != carrito[j].producto.id
  }

  /** Every line holds at least one unit. */
  predicate CantidadesPositivas(carrito: seq<CarritoItem>)
  {
    forall i :: 0 <= i < |carrito| ==> carrito[i].cantidad >= 1
  }

  /** In a cart with distinct ids, the line `Buscar` finds is the only
      line with that id. */
  lemma BuscarUnico(carrito: seq<CarritoItem>, id: string)
    requires IdsDistintos(carrito) && Buscar(carrito, id).Some?
    ensures forall j :: 0 <= j < |carrito| && carrito[j].producto.id == id ==> j == Buscar(carrito, id).value
  {
  }

  /** Appending a product the cart does not hold keeps the cart
      invariant. */
  lemma AgregarLineaConserva(carrito: seq<CarritoItem>, producto: Producto)
    requires IdsDistintos(carrito) && CantidadesPositivas(carrito)
    requires Buscar(carrito, producto.id).None?
    ensures IdsDistintos(carrito + [CarritoItem(producto, 1)])
    ensures CantidadesPositivas(carrito + [CarritoItem(producto, 1)])
  {
  }

  /** One more unit of an existing line keeps the cart invariant. */
  lemma IncrementarConserva(carrito: seq<CarritoItem>, i: nat)
    requires IdsDistintos(carrito) && CantidadesPositivas(carrito)
    requires i < |carrito|
    ensures IdsDistintos(carrito[i := carrito[i].(cantidad := carrito[i].cantidad + 1)])
    ensures CantidadesPositivas(carrito[i := carrito[i].(cantidad := carrito[i].cantidad + 1)])
  {
  }

  /** Removing a line keeps the cart invariant. */
  lemma QuitarConserva(carrito: seq<CarritoItem>, k: nat)
    requires IdsDistintos(carrito) && CantidadesPositivas(carrito)
    requires k < |carrito|
    ensures IdsDistintos(carrito[..k] + carrito[k + 1..])
    ensures CantidadesPositivas(carrito[..k] + carrito[k + 1..])
  {
    var resto := carrito[..k] + carrito[k + 1..];
    assert forall j :: 0 <= j < |resto| ==> resto[j] == carrito[if j < k then j else j + 1];
  }

  /** Where `splice(indice, 1)` starts on a list of `longitud` elements: a
      negative index counts from the end, and the result is clamped to the
      list. */
  function InicioSplice(longitud: nat, indice: int): (k: nat)
    ensures k <= longitud
    ensures 0 <= indice < longitud ==> k == indice
    ensures indice < 0 && 0 <= longitud + indice ==> k == longitud + indice
    ensures longitud + indice < 0 ==> k == 0
    ensures indice >= longitud ==> k == longitud
  {
    if indice < 0 then
      if longitud + indice < 0 then 0 else longitud + indice
    else if indice > longitud then longitud
    else indice
  }

  /** The products `cargarProductos` loads. */
  const ProductosEjemplo: seq<Producto> := [
    Producto("1", "Bandeja Paisa", "Plato típico colombiano con carne, chicharrón y más", 25000, "Platos Principales", "🍖"),
    Producto("2", "Ajiaco Santandereano", "Sopa tradicional con pollo, papa y verduras", 18000, "Sopas", "🍲"),
    Producto("3", "Tamales", "Tamales caseros envueltos en hoja de plátano", 8000, "Entrada", "🌮"),
    Producto("4", "Sancocho de Costilla", "Sancocho con costilla y verduras frescas", 20000, "Platos Principales", "🍲"),
    Producto("5", "Empanadas", "Empanadas rellenas de carne o queso", 5000, "Entrada", "🥟"),
    Producto("6", "Arepa con Queso", "Arepa tradicional rellena de queso derretido", 4000, "Entrada", "🥯")
  ]

  /** The orders `cargarPedidos` loads. */
  const PedidosEjemplo: seq<Pedido> := [
    Pedido("PED001", Entregado, 45000, []),
    Pedido("PED002", EnPreparacion, 25000, [])
  ]

  class ClienteComponent {
    const auth: AuthService
    var usuario: Option<Usuario>
    var productos: seq<Producto>
    var carrito: seq<CarritoItem>
    var pedidos: seq<Pedido>

    /** The cart invariant. */
    predicate Valid()
      reads this
    {
      IdsDistintos(carrito) && CantidadesPositivas(carrito)
    }

    /** No user, nothing loaded, an empty cart. */
    constructor (auth: AuthService)
      ensures this.auth == auth && Valid()
      ensures usuario.None? && productos == [] && carrito == [] && pedidos == []
    {
      this.auth := auth;
      usuario := None;
      productos := [];
      carrito := [];
      pedidos := [];
    }

    /** `ngOnInit`: take the current user; anyone but a `cliente` is sent
        to `/login` and nothing is loaded. */
    method NgOnInit() returns (nav: Option<Navegacion>)
      modifies this
      ensures usuario == auth.usuario && carrito == old(carrito)
      ensures !EsCliente(usuario) ==>
                nav == Some(Navegacion("/login", None)) && productos == old(productos) && pedidos == old(pedidos)
      ensures EsCliente(usuario) ==> nav.None? && productos == ProductosEjemplo && pedidos == PedidosEjemplo
    {
      usuario := auth.usuario;
      if usuario.None? || usuario.value.rol != Cliente {
        return Some(Navegacion("/login", None));
      }
      productos := ProductosEjemplo;
      pedidos := PedidosEjemplo;
      return None;
    }

    /** `calcularTotal`: the sum of price times quantity over the cart. */
    function CalcularTotal(): (t: int)
      reads this
      ensures carrito == [] ==> t == 0
      ensures (forall k :: 0 <= k < |carrito| ==> carrito[k].producto.precio >= 0) ==> t >= 0
    {
      TotalNoNegativo(carrito);
      Total(carrito)
    }

    /** `agregarAlCarrito`: one more unit of the line holding the product,
        or a new line with one unit at the end. The total grows by the price
        of the line's snapshot. */
    method AgregarAlCarrito(producto: Producto)
      requires Valid()
      modifies this
      ensures Valid()
      ensures usuario == old(usuario) && productos == old(productos) && pedidos == old(pedidos)
      ensures Buscar(old(carrito), producto.id).None? ==>
                carrito == old(carrito) + [CarritoItem(producto, 1)]
                && Total(carrito) == Total(old(carrito)) + producto.precio
      ensures Buscar(old(carrito), producto.id).Some? ==>
                var i := Buscar(old(carrito), producto.id).value;
                && carrito == old(carrito)[i := old(carrito)[i].(cantidad := old(carrito)[i].cantidad + 1)]
                && Total(carrito) == Total(old(carrito)) + old(carrito)[i].producto.precio
    {
      var encontrado := Buscar(carrito, producto.id);
      if encontrado.Some? {
        var i := encontrado.value;
        var linea := carrito[i];
        TotalReemplazo(carrito, i, linea.(cantidad := linea.cantidad + 1));
        IncrementarConserva(carrito, i);
        carrito := carrito[i := linea.(cantidad := linea.cantidad + 1)];
      } else {
        TotalAgregar(carrito, CarritoItem(producto, 1));
        AgregarLineaConserva(carrito, producto);
        carrito := carrito + [CarritoItem(producto, 1)];
      }
    }

    /** `eliminarDelCarrito`: `splice(indice, 1)`, which removes the line at
        the start position `InicioSplice` gives, or nothing when that
        position is past the end. */
    method EliminarDelCarrito(indice: int)
      requires Valid()
      modifies this
      ensures Valid()
      ensures usuario == old(usuario) && productos == old(productos) && pedidos == old(pedidos)
      ensures 0 <= indice < |old(carrito)| ==> carrito == old(carrito)[..indice] + old(carrito)[indice + 1..]
      ensures var k := InicioSplice(|old(carrito)|, indice);
              k < |old(carrito)| ==>
                carrito == old(carrito)[..k] + old(carrito)[k + 1..]
                && Total(carrito) == Total(old(carrito)) - Subtotal(old(carrito)[k])
      ensures InicioSplice(|old(carrito)|, indice) == |old(carrito)| ==> carrito == old(carrito)
    {
      var k := InicioSplice(|carrito|, indice);
      if k < |carrito| {
        assert carrito == carrito[..k] + [carrito[k]] + carrito[k + 1..];
        TotalSinLinea(carrito[..k], carrito[k], carrito[k + 1..]);
        QuitarConserva(carrito, k);
        carrito := carrito[..k] + carrito[k + 1..];
      }
    }

    /** `confirmarPedido`: an empty cart changes nothing; otherwise a
        `pendiente` order with the cart's lines and total goes in front of
        the orders and the cart is emptied. `id` is the new order's id. */
    method ConfirmarPedido(id: string)
      requires Valid()
      modifies this
      ensures Valid()
      ensures usuario == old(usuario) && productos == old(productos)
      ensures old(carrito) == [] ==> carrito == old(carrito) && pedidos == old(pedidos)
      ensures old(carrito) != [] ==>
                && carrito == []
                && pedidos == [Pedido(id, Pendiente, old(CalcularTotal()), old(carrito))] + old(pedidos)
    {
      if |carrito| == 0 {
        return;
      }
      var total := CalcularTotal();
      var nuevoPedido := Pedido(id, Pendiente, total, carrito);
      pedidos := [nuevoPedido] + pedidos;
      carrito := [];
    }

    /** `cerrarSesion`: sign out, then go to `/login`; a failed sign-out
        rejects the handler with the sign-out's error before any
        navigation. */
    method CerrarSesion(salida: Result<(), Falla>) returns (nav: Option<Navegacion>, error: Option<Falla>)
      modifies auth
      ensures auth.cargando == old(auth.cargando)
      ensures salida.Ok? ==> nav == Some(Navegacion("/login", None)) && error.None? && auth.usuario.None?
      ensures salida.Err? ==> nav.None? && error == Some(salida.error) && auth.usuario == old(auth.usuario)
    {
      error := auth.CerrarSesion(salida);
      if error.Some? {
        return None, error;
      }
      return Some(Navegacion("/login", None)), None;
    }
  }
}
