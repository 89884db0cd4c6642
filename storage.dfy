/** `UserStorage`: the on-device preference container. It holds five string
    keys; four of them carry a JSON-encoded list and one the e-mail of the
    logged-in user. The JSON codec is abstract here: a list key is either
    absent, holds a blob that does not decode, or holds the encoding of a
    list. Writing the encoding of `xs` and decoding it again gives `xs`. */
module Storage {
  import opened Lists
  import opened Domain

  /** The five preference keys. */
  const USERS_KEY: string := "usuarios"
  const LOGIN_ATTEMPTS_KEY: string := "intento_login"
  const PRODUCTS_KEY: string := "productos"
  const LOGGED_IN_USER_EMAIL_KEY: string := "email_usuario_logueado"
  const CART_KEY: string := "carrito"

  /** What a list-valued key holds. */
  datatype Stored<T> = Absent | Corrupt | Present(items: seq<T>)

  /** The `*Flow` readers and the `try { decode } catch { empty }` of the
      mutators: the decoded list, or the empty list when the key is absent or
      its blob does not decode. */
  function Decoded<T>(s: Stored<T>): (r: seq<T>)
    ensures s.Absent? ==> r == []
    ensures s.Corrupt? ==> r == []
    ensures s.Present? ==> r == s.items
  {
    if s.Present? then s.items else []
  }

  /** The read-modify-write of `guardarUsuario`, `agregarIntentoLogin` and
      `guardarProducto`: decode (or start empty), add at the end, write back. */
  function Appended<T>(s: Stored<T>, x: T): (r: Stored<T>)
    ensures r.Present? && |r.items| == |Decoded(s)| + 1
    ensures r.items[..|Decoded(s)|] == Decoded(s) && r.items[|Decoded(s)|] == x
  {
    Present(Decoded(s) + [x])
  }

  function MismoCorreo(correo: string): Usuario -> bool
  {
    (u: Usuario) => u.correo == correo
  }

  /** The read-modify-write of `actualizarUsuario`: give up when the key is
      absent or undecodable, otherwise replace the first user with the same
      `correo`, and write only when there was one. */
  function Updated(s: Stored<Usuario>, u: Usuario): (r: Stored<Usuario>)
    ensures !s.Present? ==> r == s
    ensures s.Present? ==> r.Present? && |r.items| == |s.items|
    ensures s.Present? ==> forall k :: 0 <= k < |s.items| ==> r.items[k] == s.items[k] || r.items[k] == u
  {
    match s
    case Present(xs) =>
      var i := IndexWhere(xs, MismoCorreo(u.correo));
      if i == -1 then s else Present(xs[i := u])
    case _ => s
  }

  /** One user per e-mail: `actualizarUsuario` keeps it, `guardarUsuario`
      does not check it. */
  ghost predicate CorreosUnicos(xs: seq<Usuario>)
  {
    forall i, j :: 0 <= i < j < |xs| ==> xs[i].correo != xs[j].correo
  }

  /** The five keys are distinct, so each mutator below, which writes one
      key, leaves the other four alone. */
  lemma KeysDistinct()
    ensures |{USERS_KEY, LOGIN_ATTEMPTS_KEY, PRODUCTS_KEY, LOGGED_IN_USER_EMAIL_KEY, CART_KEY}| == 5
  {
    assert USERS_KEY[0] == 'u' && LOGIN_ATTEMPTS_KEY[0] == 'i' && PRODUCTS_KEY[0] == 'p';
    assert LOGGED_IN_USER_EMAIL_KEY[0] == 'e' && CART_KEY[0] == 'c';
  }

  /** Appending puts `x` after everything that could be read before, and
      nothing else: the log only grows. On an undecodable blob the old
      contents are lost and the list becomes exactly `[x]`. */
  lemma AppendedGrows<T>(s: Stored<T>, x: T)
    ensures Decoded(Appended(s, x)) == Decoded(s) + [x]
    ensures |Decoded(Appended(s, x))| == |Decoded(s)| + 1
    ensures s.Present? ==> s.items <= Decoded(Appended(s, x))
    ensures s.Corrupt? ==> Decoded(Appended(s, x)) == [x]
    ensures multiset(Decoded(Appended(s, x)))[x] == multiset(Decoded(s))[x] + 1
  {
  }

  /** `guardarUsuario` checks nothing: registering an e-mail twice breaks the
      one-user-per-e-mail invariant. */
  lemma RegisterDoesNotKeepCorreosUnicos(u: Usuario)
    ensures CorreosUnicos([u])
    ensures !CorreosUnicos(Decoded(Appended(Present([u]), u)))
  {
    var xs := Decoded(Appended(Present([u]), u));
    assert xs == [u, u];
    assert xs[0].correo == xs[1].correo;
  }

  /** With a decodable list, `actualizarUsuario` replaces exactly the first
      user with the same `correo` and leaves every other entry where it was;
      with no such user nothing is written. */
  lemma {:induction false} UpdateReplacesFirstMatch(xs: seq<Usuario>, u: Usuario)
    ensures (forall k :: 0 <= k < |xs| ==> xs[k].correo != u.correo) ==> Updated(Present(xs), u) == Present(xs)
    ensures forall i :: 0 <= i < |xs| && xs[i].correo == u.correo && (forall k :: 0 <= k < i ==> xs[k].correo != u.correo) ==>
      && Updated(Present(xs), u).Present?
      && |Updated(Present(xs), u).items| == |xs|
      && Updated(Present(xs), u).items[i] == u
      && forall k :: 0 <= k < |xs| && k != i ==> Updated(Present(xs), u).items[k] == xs[k]
  {
    var p := MismoCorreo(u.correo);
    var j := IndexWhere(xs, p);
    forall i | 0 <= i < |xs| && xs[i].correo == u.correo && (forall k :: 0 <= k < i ==> xs[k].correo != u.correo)
      ensures i == j
    {
      assert p(xs[i]);
    }
  }

  /** Because the replacement keeps the `correo` it was found by, an update
      keeps the directory free of duplicate e-mails. */
  lemma UpdatePreservesCorreosUnicos(xs: seq<Usuario>, u: Usuario)
    requires CorreosUnicos(xs)
    ensures CorreosUnicos(Decoded(Updated(Present(xs), u)))
  {
    var i := IndexWhere(xs, MismoCorreo(u.correo));
    if i != -1 {
      var ys := xs[i := u];
      forall a, b | 0 <= a < b < |ys| ensures ys[a].correo != ys[b].correo {
        assert ys[a].correo == xs[a].correo && ys[b].correo == xs[b].correo;
      }
    }
  }

  /** The local store. Each field is one preference key; every mutator is one
      atomic `edit` that rewrites a single key. */
  class UserStorage {
    var usuarios: Stored<Usuario>
    var intentos: Stored<IntentoLogin>
    var productos: Stored<Producto>
    var emailUsuarioLogueado: Option<string>
    var carrito: Stored<ItemCarrito>

    /** The container as found on the device. */
    constructor (usuarios: Stored<Usuario>, intentos: Stored<IntentoLogin>, productos: Stored<Producto>,
                 emailUsuarioLogueado: Option<string>, carrito: Stored<ItemCarrito>)
      ensures this.usuarios == usuarios && this.intentos == intentos && this.productos == productos
      ensures this.emailUsuarioLogueado == emailUsuarioLogueado && this.carrito == carrito
    {
      this.usuarios := usuarios;
      this.intentos := intentos;
      this.productos := productos;
      this.emailUsuarioLogueado := emailUsuarioLogueado;
      this.carrito := carrito;
    }

    /** `carritoFlow`, one emission. */
    function CarritoFlow(): (r: seq<ItemCarrito>)
      reads this
      ensures carrito.Present? ==> r == carrito.items
      ensures !carrito.Present? ==> r == []
    {
      Decoded(carrito)
    }

    /** `usuariosFlow`, one emission. */
    function UsuariosFlow(): (r: seq<Usuario>)
      reads this
      ensures usuarios.Present? ==> r == usuarios.items
      ensures !usuarios.Present? ==> r == []
    {
      Decoded(usuarios)
    }

    /** `intentoLoginFlow`, one emission. */
    function IntentoLoginFlow(): (r: seq<IntentoLogin>)
      reads this
      ensures intentos.Present? ==> r == intentos.items
      ensures !intentos.Present? ==> r == []
    {
      Decoded(intentos)
    }

    /** `productosFlow`, one emission. */
    function ProductosFlow(): (r: seq<Producto>)
      reads this
      ensures productos.Present? ==> r == productos.items
      ensures !productos.Present? ==> r == []
    {
      Decoded(productos)
    }

    /** `emailUsuarioLogueadoFlow`, one emission (null when never set). */
    function EmailUsuarioLogueadoFlow(): (r: Option<string>)
      reads this
      ensures r.Some? <==> emailUsuarioLogueado.Some?
      ensures r.Some? ==> r.value == emailUsuarioLogueado.value
    {
      emailUsuarioLogueado
    }

    /** `guardarCarrito`: overwrite the cart; the next read gives it back. */
    method GuardarCarrito(c: seq<ItemCarrito>)
      modifies this
      ensures carrito == Present(c) && CarritoFlow() == c
      ensures usuarios == old(usuarios) && intentos == old(intentos) && productos == old(productos)
      ensures emailUsuarioLogueado == old(emailUsuarioLogueado)
    {
      carrito := Present(c);
    }

    /** `vaciarCarrito`: remove the cart key (not an empty-list write). */
    method VaciarCarrito()
      modifies this
      ensures carrito == Absent && CarritoFlow() == []
      ensures usuarios == old(usuarios) && intentos == old(intentos) && productos == old(productos)
      ensures emailUsuarioLogueado == old(emailUsuarioLogueado)
    {
      carrito := Absent;
    }

    /** `guardarEmailUsuarioLogueado`: the session read returns what was
      written last. */
    method GuardarEmailUsuarioLogueado(correo: string)
      modifies this
      ensures emailUsuarioLogueado == Some(correo) && EmailUsuarioLogueadoFlow() == Some(correo)
      ensures usuarios == old(usuarios) && intentos == old(intentos) && productos == old(productos)
      ensures carrito == old(carrito)
    {
      emailUsuarioLogueado := Some(correo);
    }

    /** `guardarUsuario`: append without any uniqueness check. */
    method GuardarUsuario(usuario: Usuario)
      modifies this
      ensures usuarios == Appended(old(usuarios), usuario)
      ensures UsuariosFlow() == old(UsuariosFlow()) + [usuario]
      ensures intentos == old(intentos) && productos == old(productos) && carrito == old(carrito)
      ensures emailUsuarioLogueado == old(emailUsuarioLogueado)
    {
      var lista: seq<Usuario>;
      if usuarios.Present? {
        lista := usuarios.items;
      } else {
        lista := [];
      }
      lista := lista + [usuario];
      usuarios := Present(lista);
    }

    /** `actualizarUsuario`: replace the first user with the same `correo`;
      an absent or undecodable key, or no such user, writes nothing. */
    method ActualizarUsuario(actualizado: Usuario)
      modifies this
      ensures usuarios == Updated(old(usuarios), actualizado)
      ensures |UsuariosFlow()| == |old(UsuariosFlow())|
      ensures intentos == old(intentos) && productos == old(productos) && carrito == old(carrito)
      ensures emailUsuarioLogueado == old(emailUsuarioLogueado)
    {
      if !usuarios.Present? {
        return;
      }
      var lista := usuarios.items;
      var indice := IndexWhere(lista, MismoCorreo(actualizado.correo));
      if indice != -1 {
        lista := lista[indice := actualizado];
        usuarios := Present(lista);
      }
    }

    /** `agregarIntentoLogin`: append one attempt to the log. */
    method AgregarIntentoLogin(intento: IntentoLogin)
      modifies this
      ensures intentos == Appended(old(intentos), intento)
      ensures IntentoLoginFlow() == old(IntentoLoginFlow()) + [intento]
      ensures usuarios == old(usuarios) && productos == old(productos) && carrito == old(carrito)
      ensures emailUsuarioLogueado == old(emailUsuarioLogueado)
    {
      var lista: seq<IntentoLogin>;
      if intentos.Present? {
        lista := intentos.items;
      } else {
        lista := [];
      }
      lista := lista + [intento];
      intentos := Present(lista);
    }

    /** `guardarProducto`: append one product to the catalogue. */
    method GuardarProducto(producto: Producto)
      modifies this
      ensures productos == Appended(old(productos), producto)
      ensures ProductosFlow() == old(ProductosFlow()) + [producto]
      ensures usuarios == old(usuarios) && intentos == old(intentos) && carrito == old(carrito)
      ensures emailUsuarioLogueado == old(emailUsuarioLogueado)
    {
      var lista: seq<Producto>;
      if productos.Present? {
        lista := productos.items;
      } else {
        lista := [];
      }
      lista := lista + [producto];
      productos := Present(lista);
    }
  }
}
