/** `CarritoViewModel`: the cart manager. Every operation re-reads the stored
    cart, edits a copy (lines are matched by product name) and writes the
    whole list back. The functions below say what list each operation writes;
    the lemmas say what that means for the cart. */
module Cart {
  import opened Lists
  import opened Domain
  import opened Storage

  function MismoNombre(nombre: string): ItemCarrito -> bool
  {
    (it: ItemCarrito) => it.producto.nombre == nombre
  }

  /** Index of the first line for product `nombre`, or -1. */
  function IndiceNombre(c: seq<ItemCarrito>, nombre: string): int
  {
    IndexWhere(c, MismoNombre(nombre))
  }

  /** `cantidad + 1` in Kotlin `Int` arithmetic. */
  function Inc(n: Int32): (r: Int32)
    ensures n < INT_MAX ==> r == n + 1
    ensures n == INT_MAX ==> r == INT_MIN
  {
    Wrap(n + 1)
  }

  /** The list `agregarAlCarrito(producto)` writes. */
  function Agregar(c: seq<ItemCarrito>, producto: Producto): (r: seq<ItemCarrito>)
    ensures (forall k :: 0 <= k < |c| ==> c[k].producto.nombre != producto.nombre) ==> |r| == |c| + 1
    ensures (exists k :: 0 <= k < |c| && c[k].producto.nombre == producto.nombre) ==> |r| == |c|
    ensures exists k :: 0 <= k < |r| && r[k].producto.nombre == producto.nombre
  {
    var i := IndiceNombre(c, producto.nombre);
    if i == -1 then
      var r := c + [ItemCarrito(producto, 1)];
      assert r[|c|].producto.nombre == producto.nombre;
      r
    else
      var r := c[i := c[i].(cantidad := Inc(c[i].cantidad))];
      assert r[i].producto.nombre == producto.nombre;
      r
  }

  /** The list `aumentarCantidad` writes, or `None` when nothing is written. */
  function Aumentar(c: seq<ItemCarrito>, nombre: string): (r: Option<seq<ItemCarrito>>)
    ensures r.None? <==> forall k :: 0 <= k < |c| ==> c[k].producto.nombre != nombre
    ensures r.Some? ==> |r.value| == |c|
  {
    var i := IndiceNombre(c, nombre);
    if i == -1 then None
    else Some(c[i := c[i].(cantidad := Inc(c[i].cantidad))])
  }

  /** The list `disminuirCantidad` writes, or `None` when nothing is written.
      A line at quantity 1 (or less) is removed with `remove(itemExistente)`. */
  function Disminuir(c: seq<ItemCarrito>, nombre: string): (r: Option<seq<ItemCarrito>>)
    ensures r.None? <==> forall k :: 0 <= k < |c| ==> c[k].producto.nombre != nombre
    ensures r.Some? ==> |r.value| == |c| || |r.value| == |c| - 1
  {
    var i := IndiceNombre(c, nombre);
    if i == -1 then None
    else if c[i].cantidad > 1 then Some(c[i := c[i].(cantidad := c[i].cantidad - 1)])
    else Some(Remove(c, c[i]))
  }

  /** The list `borrarDelCarrito(item)` writes: the cart without its first
      line structurally equal to `item`. */
  function Borrar(c: seq<ItemCarrito>, item: ItemCarrito): (r: seq<ItemCarrito>)
    ensures item !in c ==> r == c
    ensures item in c ==> |r| == |c| - 1 && multiset(r) == multiset(c) - multiset{item}
  {
    Remove(c, item)
  }

  /** The cart invariant: product names pairwise distinct, every quantity at
      least 1. */
  ghost predicate CarritoValido(c: seq<ItemCarrito>)
  {
    && (forall i, j :: 0 <= i < j < |c| ==> c[i].producto.nombre != c[j].producto.nombre)
    && (forall k :: 0 <= k < |c| ==> c[k].cantidad >= 1)
  }

  /** No line sits at `Int.MAX_VALUE`, where one more `+ 1` would wrap. */
  ghost predicate BajoElTope(c: seq<ItemCarrito>)
  {
    forall k :: 0 <= k < |c| ==> c[k].cantidad < INT_MAX
  }

  function Cantidad(it: ItemCarrito): int
  {
    it.cantidad
  }

  function Subtotal(it: ItemCarrito): int
  {
    it.producto.precio * it.cantidad
  }

  /** Sum of `f` over the lines, exact (no wrap-around). */
  function SumBy(c: seq<ItemCarrito>, f: ItemCarrito -> int): int
  {
    if c == [] then 0 else SumBy(c[..|c| - 1], f) + f(c[|c| - 1])
  }

  lemma {:induction false} SumByUpdate(c: seq<ItemCarrito>, f: ItemCarrito -> int, i: nat, x: ItemCarrito)
    requires i < |c|
    ensures SumBy(c[i := x], f) == SumBy(c, f) - f(c[i]) + f(x)
    decreases |c|
  {
    var n := |c| - 1;
    assert c[i := x][..n] == if i == n then c[..n] else c[..n][i := x];
    if i < n {
      SumByUpdate(c[..n], f, i, x);
    }
  }

  lemma {:induction false} SumByRemoveAt(c: seq<ItemCarrito>, f: ItemCarrito -> int, i: nat)
    requires i < |c|
    ensures SumBy(RemoveAt(c, i), f) == SumBy(c, f) - f(c[i])
    decreases |c|
  {
    var n := |c| - 1;
    var r := RemoveAt(c, i);
    if i == n {
      assert r == c[..n];
    } else {
      assert r[..|r| - 1] == RemoveAt(c[..n], i);
      assert r[|r| - 1] == c[n];
      SumByRemoveAt(c[..n], f, i);
    }
  }

  /** With distinct names, the first line for a name is the only one. */
  lemma IndiceNombreUnico(c: seq<ItemCarrito>, k: nat)
    requires CarritoValido(c)
    requires k < |c|
    ensures IndiceNombre(c, c[k].producto.nombre) == k
  {
    assert MismoNombre(c[k].producto.nombre)(c[k]);
  }

  /** `disminuirCantidad`'s `remove(itemExistente)` drops exactly the line the
      name search found, since an equal line met earlier would have carried
      the same name. */
  lemma RemoveFound(c: seq<ItemCarrito>, nombre: string)
    requires IndiceNombre(c, nombre) != -1
    ensures Remove(c, c[IndiceNombre(c, nombre)]) == RemoveAt(c, IndiceNombre(c, nombre))
  {
    IndexOfFound(c, MismoNombre(nombre));
  }

  /** Adding a product whose name is not in the cart appends one line with
      quantity 1. */
  lemma AgregarNuevo(c: seq<ItemCarrito>, producto: Producto)
    requires forall k :: 0 <= k < |c| ==> c[k].producto.nombre != producto.nombre
    ensures Agregar(c, producto) == c + [ItemCarrito(producto, 1)]
    ensures |Agregar(c, producto)| == |c| + 1
  {
  }

  /** Adding a product whose name is in the cart keeps the length, raises the
      first matching line's quantity by one (keeping that line's old product
      snapshot) and leaves every other line alone. */
  lemma AgregarExistente(c: seq<ItemCarrito>, producto: Producto, i: nat)
    requires i < |c| && c[i].producto.nombre == producto.nombre
    requires forall k :: 0 <= k < i ==> c[k].producto.nombre != producto.nombre
    ensures |Agregar(c, producto)| == |c|
    ensures Agregar(c, producto)[i] == ItemCarrito(c[i].producto, Inc(c[i].cantidad))
    ensures forall k :: 0 <= k < |c| && k != i ==> Agregar(c, producto)[k] == c[k]
  {
    assert MismoNombre(producto.nombre)(c[i]);
  }

  /** `aumentarCantidad` acts on the line found by name in the freshly read
      cart: it is `agregarAlCarrito` of that name when the name is there, and
      writes nothing otherwise. */
  lemma AumentarEsAgregar(c: seq<ItemCarrito>, producto: Producto)
    ensures Aumentar(c, producto.nombre).None? <==> forall k :: 0 <= k < |c| ==> c[k].producto.nombre != producto.nombre
    ensures Aumentar(c, producto.nombre).Some? ==> Aumentar(c, producto.nombre).value == Agregar(c, producto)
  {
  }

  /** `disminuirCantidad` on a line above 1 decrements it in place. */
  lemma DisminuirDecrementa(c: seq<ItemCarrito>, nombre: string, i: nat)
    requires i < |c| && c[i].producto.nombre == nombre && c[i].cantidad > 1
    requires forall k :: 0 <= k < i ==> c[k].producto.nombre != nombre
    ensures Disminuir(c, nombre) == Some(c[i := ItemCarrito(c[i].producto, c[i].cantidad - 1)])
  {
    assert MismoNombre(nombre)(c[i]);
  }

  /** `disminuirCantidad` on a line at 1 (or less) removes that line and keeps
      the order of the rest; with no line of that name nothing is written. */
  lemma DisminuirQuita(c: seq<ItemCarrito>, nombre: string)
    ensures (forall k :: 0 <= k < |c| ==> c[k].producto.nombre != nombre) ==> Disminuir(c, nombre) == None
    ensures forall i :: (0 <= i < |c| && c[i].producto.nombre == nombre && c[i].cantidad <= 1
                         && (forall k :: 0 <= k < i ==> c[k].producto.nombre != nombre)) ==>
      Disminuir(c, nombre) == Some(RemoveAt(c, i))
  {
    var i := IndiceNombre(c, nombre);
    if i != -1 {
      RemoveFound(c, nombre);
      forall j | 0 <= j < |c| && c[j].producto.nombre == nombre && (forall k :: 0 <= k < j ==> c[k].producto.nombre != nombre)
        ensures j == i
      {
        assert MismoNombre(nombre)(c[j]);
      }
    }
  }

  /** `borrarDelCarrito` removes only the first line equal to its argument;
      with no equal line the cart is unchanged. */
  lemma BorrarQuitaPrimero(c: seq<ItemCarrito>, item: ItemCarrito)
    ensures item !in c ==> Borrar(c, item) == c
    ensures forall i :: 0 <= i < |c| && c[i] == item && item !in c[..i] ==> Borrar(c, item) == RemoveAt(c, i)
  {
  }

  lemma RemoveAtPreservesValido(c: seq<ItemCarrito>, i: nat)
    requires CarritoValido(c) && i < |c|
    ensures CarritoValido(RemoveAt(c, i))
  {
    var r := RemoveAt(c, i);
    forall a, b | 0 <= a < b < |r| ensures r[a].producto.nombre != r[b].producto.nombre {
      var a' := if a < i then a else a + 1;
      var b' := if b < i then b else b + 1;
      assert r[a] == c[a'] && r[b] == c[b'];
    }
  }

  /** Bumping one line's quantity (name kept, result still at least 1) keeps
      the cart valid. */
  lemma SetCantidadPreservesValido(c: seq<ItemCarrito>, i: nat, n: Int32)
    requires CarritoValido(c) && i < |c| && n >= 1
    ensures CarritoValido(c[i := c[i].(cantidad := n)])
  {
    var r := c[i := c[i].(cantidad := n)];
    forall a, b | 0 <= a < b < |r| ensures r[a].producto.nombre != r[b].producto.nombre {
      assert r[a].producto == c[a].producto && r[b].producto == c[b].producto;
    }
  }

  /** Adding keeps names unique and quantities positive, as long as the line
      it bumps is below `Int.MAX_VALUE`. */
  lemma AgregarPreservesValido(c: seq<ItemCarrito>, producto: Producto)
    requires CarritoValido(c) && BajoElTope(c)
    ensures CarritoValido(Agregar(c, producto))
  {
    var i := IndiceNombre(c, producto.nombre);
    if i == -1 {
      var r := c + [ItemCarrito(producto, 1)];
      forall a, b | 0 <= a < b < |r| ensures r[a].producto.nombre != r[b].producto.nombre {
        if b == |c| {
          assert !MismoNombre(producto.nombre)(c[a]);
        } else {
          assert r[a] == c[a] && r[b] == c[b];
        }
      }
    } else {
      SetCantidadPreservesValido(c, i, Inc(c[i].cantidad));
    }
  }

  lemma AumentarPreservesValido(c: seq<ItemCarrito>, nombre: string)
    requires CarritoValido(c) && BajoElTope(c)
    ensures Aumentar(c, nombre).Some? ==> CarritoValido(Aumentar(c, nombre).value)
  {
    var i := IndiceNombre(c, nombre);
    if i != -1 {
      SetCantidadPreservesValido(c, i, Inc(c[i].cantidad));
    }
  }

  lemma DisminuirPreservesValido(c: seq<ItemCarrito>, nombre: string)
    requires CarritoValido(c)
    ensures Disminuir(c, nombre).Some? ==> CarritoValido(Disminuir(c, nombre).value)
  {
    var i := IndiceNombre(c, nombre);
    if i != -1 {
      if c[i].cantidad > 1 {
        SetCantidadPreservesValido(c, i, c[i].cantidad - 1);
      } else {
        RemoveFound(c, nombre);
        RemoveAtPreservesValido(c, i);
      }
    }
  }

  lemma BorrarPreservesValido(c: seq<ItemCarrito>, item: ItemCarrito)
    requires CarritoValido(c)
    ensures CarritoValido(Borrar(c, item))
  {
    var i := IndexOf(c, item);
    if i != -1 {
      RemoveAtPreservesValido(c, i);
    }
  }

  /** Every add puts exactly one more unit in the cart (below the wrap). */
  lemma AgregarCantidadTotal(c: seq<ItemCarrito>, producto: Producto)
    requires BajoElTope(c)
    ensures SumBy(Agregar(c, producto), Cantidad) == SumBy(c, Cantidad) + 1
  {
    var i := IndiceNombre(c, producto.nombre);
    if i == -1 {
      assert (c + [ItemCarrito(producto, 1)])[..|c|] == c;
    } else {
      SumByUpdate(c, Cantidad, i, c[i].(cantidad := Inc(c[i].cantidad)));
    }
  }

  /** Every decrement that writes takes exactly one unit out of a valid cart. */
  lemma DisminuirCantidadTotal(c: seq<ItemCarrito>, nombre: string)
    requires CarritoValido(c)
    ensures Disminuir(c, nombre).Some? ==> SumBy(Disminuir(c, nombre).value, Cantidad) == SumBy(c, Cantidad) - 1
  {
    var i := IndiceNombre(c, nombre);
    if i != -1 {
      if c[i].cantidad > 1 {
        SumByUpdate(c, Cantidad, i, c[i].(cantidad := c[i].cantidad - 1));
      } else {
        RemoveFound(c, nombre);
        SumByRemoveAt(c, Cantidad, i);
      }
    }
  }

  /** At `Int.MAX_VALUE` one more add wraps the quantity to `Int.MIN_VALUE`,
      which breaks the invariant: the `BajoElTope` hypothesis above is needed. */
  lemma AgregarEnElTope(producto: Producto)
    ensures Agregar([ItemCarrito(producto, INT_MAX)], producto) == [ItemCarrito(producto, INT_MIN)]
    ensures !CarritoValido(Agregar([ItemCarrito(producto, INT_MAX)], producto))
  {
    var c := [ItemCarrito(producto, INT_MAX)];
    assert MismoNombre(producto.nombre)(c[0]);
    assert Inc(INT_MAX) == INT_MIN;
    assert Agregar(c, producto)[0].cantidad < 1;
  }

  /** Add A, add A, decrease, decrease: one line at 1, then at 2, then at 1,
      then the empty cart. */
  lemma EjemploAgregarDisminuir(a: Producto)
    ensures Agregar([], a) == [ItemCarrito(a, 1)]
    ensures Agregar([ItemCarrito(a, 1)], a) == [ItemCarrito(a, 2)]
    ensures Disminuir([ItemCarrito(a, 2)], a.nombre) == Some([ItemCarrito(a, 1)])
    ensures Disminuir([ItemCarrito(a, 1)], a.nombre) == Some([])
  {
    assert MismoNombre(a.nombre)([ItemCarrito(a, 1)][0]);
    assert MismoNombre(a.nombre)([ItemCarrito(a, 2)][0]);
    assert [ItemCarrito(a, 2)][0 := ItemCarrito(a, 1)] == [ItemCarrito(a, 1)];
    assert IndexOf([ItemCarrito(a, 1)], ItemCarrito(a, 1)) == 0;
  }

  /** `precioTotal = itemsCarrito.sumOf { it.producto.precio * it.cantidad }`
      on Kotlin `Int`: the exact total, wrapped once; so whenever the exact
      total fits in an `Int`, it is what the screen shows. */
  method PrecioTotal(items: seq<ItemCarrito>) returns (total: Int32)
    ensures total == Wrap(SumBy(items, Subtotal))
    ensures INT_MIN <= SumBy(items, Subtotal) <= INT_MAX ==> total == SumBy(items, Subtotal)
  {
    total := 0;
    for i := 0 to |items|
      invariant total == Wrap(SumBy(items[..i], Subtotal))
    {
      var it := items[i];
      var s := SumBy(items[..i], Subtotal);
      assert items[..i + 1][..i] == items[..i];
      WrapAdd(s, Wrap(it.producto.precio * it.cantidad));
      WrapAdd(it.producto.precio * it.cantidad, s);
      total := Wrap(total + Wrap(it.producto.precio * it.cantidad));
    }
    assert items[..|items|] == items;
  }

  /** The view model: the cart state the screen observes, and the store it
      reads from and writes to. */
  class CarritoViewModel {
    const userStorage: UserStorage
    var itemsCarrito: seq<ItemCarrito>

    constructor (userStorage: UserStorage)
      ensures this.userStorage == userStorage && itemsCarrito == []
    {
      this.userStorage := userStorage;
      itemsCarrito := [];
    }

    /** The `init` collector, one emission: the observed state becomes the
        stored cart as read now. */
    method Observar()
      modifies this
      ensures itemsCarrito == userStorage.CarritoFlow()
    {
      itemsCarrito := userStorage.CarritoFlow();
    }

    method AgregarAlCarrito(producto: Producto)
      modifies userStorage
      ensures userStorage.carrito == Present(Agregar(old(userStorage.CarritoFlow()), producto))
      ensures userStorage.usuarios == old(userStorage.usuarios) && userStorage.intentos == old(userStorage.intentos)
      ensures userStorage.productos == old(userStorage.productos)
      ensures userStorage.emailUsuarioLogueado == old(userStorage.emailUsuarioLogueado)
    {
      var carritoActual := userStorage.CarritoFlow();
      var itemExistente := Find(carritoActual, MismoNombre(producto.nombre));
      if itemExistente.Some? {
        var item := itemExistente.value;
        var itemActualizado := item.(cantidad := Inc(item.cantidad));
        IndexOfFound(carritoActual, MismoNombre(producto.nombre));
        var itemIndex := IndexOf(carritoActual, item);
        carritoActual := carritoActual[itemIndex := itemActualizado];
      } else {
        carritoActual := carritoActual + [ItemCarrito(producto, 1)];
      }
      userStorage.GuardarCarrito(carritoActual);
    }

    method BorrarDelCarrito(itemCarrito: ItemCarrito)
      modifies userStorage
      ensures userStorage.carrito == Present(Borrar(old(userStorage.CarritoFlow()), itemCarrito))
      ensures userStorage.usuarios == old(userStorage.usuarios) && userStorage.intentos == old(userStorage.intentos)
      ensures userStorage.productos == old(userStorage.productos)
      ensures userStorage.emailUsuarioLogueado == old(userStorage.emailUsuarioLogueado)
    {
      var carritoActual := userStorage.CarritoFlow();
      carritoActual := Remove(carritoActual, itemCarrito);
      userStorage.GuardarCarrito(carritoActual);
    }

    /** Only the name of the passed line matters: the target is re-resolved
        in the stored cart. */
    method AumentarCantidad(itemCarrito: ItemCarrito)
      modifies userStorage
      ensures Aumentar(old(userStorage.CarritoFlow()), itemCarrito.producto.nombre).None? ==>
        userStorage.carrito == old(userStorage.carrito)
      ensures Aumentar(old(userStorage.CarritoFlow()), itemCarrito.producto.nombre).Some? ==>
        userStorage.carrito == Present(Aumentar(old(userStorage.CarritoFlow()), itemCarrito.producto.nombre).value)
      ensures userStorage.usuarios == old(userStorage.usuarios) && userStorage.intentos == old(userStorage.intentos)
      ensures userStorage.productos == old(userStorage.productos)
      ensures userStorage.emailUsuarioLogueado == old(userStorage.emailUsuarioLogueado)
    {
      var carritoActual := userStorage.CarritoFlow();
      var nombre := itemCarrito.producto.nombre;
      var itemExistente := Find(carritoActual, MismoNombre(nombre));
      if itemExistente.Some? {
        var item := itemExistente.value;
        var itemActualizado := item.(cantidad := Inc(item.cantidad));
        IndexOfFound(carritoActual, MismoNombre(nombre));
        var itemIndex := IndexOf(carritoActual, item);
        carritoActual := carritoActual[itemIndex := itemActualizado];
        userStorage.GuardarCarrito(carritoActual);
      }
    }

    method DisminuirCantidad(itemCarrito: ItemCarrito)
      modifies userStorage
      ensures Disminuir(old(userStorage.CarritoFlow()), itemCarrito.producto.nombre).None? ==>
        userStorage.carrito == old(userStorage.carrito)
      ensures Disminuir(old(userStorage.CarritoFlow()), itemCarrito.producto.nombre).Some? ==>
        userStorage.carrito == Present(Disminuir(old(userStorage.CarritoFlow()), itemCarrito.producto.nombre).value)
      ensures userStorage.usuarios == old(userStorage.usuarios) && userStorage.intentos == old(userStorage.intentos)
      ensures userStorage.productos == old(userStorage.productos)
      ensures userStorage.emailUsuarioLogueado == old(userStorage.emailUsuarioLogueado)
    {
      var carritoActual := userStorage.CarritoFlow();
      var nombre := itemCarrito.producto.nombre;
      var itemExistente := Find(carritoActual, MismoNombre(nombre));
      if itemExistente.Some? {
        var item := itemExistente.value;
        if item.cantidad > 1 {
          var itemActualizado := item.(cantidad := item.cantidad - 1);
          IndexOfFound(carritoActual, MismoNombre(nombre));
          var itemIndex := IndexOf(carritoActual, item);
          carritoActual := carritoActual[itemIndex := itemActualizado];
        } else {
          carritoActual := Remove(carritoActual, item);
        }
        userStorage.GuardarCarrito(carritoActual);
      }
    }

    /** `borrarCarrito`: the key is removed, so the next emission is empty. */
    method BorrarCarrito()
      modifies userStorage
      ensures userStorage.carrito == Absent && userStorage.CarritoFlow() == []
      ensures userStorage.usuarios == old(userStorage.usuarios) && userStorage.intentos == old(userStorage.intentos)
      ensures userStorage.productos == old(userStorage.productos)
      ensures userStorage.emailUsuarioLogueado == old(userStorage.emailUsuarioLogueado)
    {
      userStorage.VaciarCarrito();
    }
  }

  /** Add A twice, decrease twice, then observe: the observed cart is empty
      whatever the store held for the other keys. */
  method EjemploSecuencia(a: Producto) returns (observado: seq<ItemCarrito>)
    ensures observado == []
  {
    var store := new UserStorage(Absent, Absent, Absent, None, Absent);
    var vm := new CarritoViewModel(store);
    vm.AgregarAlCarrito(a);
    vm.AgregarAlCarrito(a);
    EjemploAgregarDisminuir(a);
    vm.DisminuirCantidad(ItemCarrito(a, 2));
    vm.DisminuirCantidad(ItemCarrito(a, 1));
    vm.Observar();
    observado := vm.itemsCarrito;
  }
}
