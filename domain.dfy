/** The records the local store persists: users, login attempts, products and
    cart lines, with Kotlin's 32-bit `Int` written out where it matters. */
module Domain {
  import opened Lists

  const INT_MIN: int := -0x8000_0000
  const INT_MAX: int := 0x7fff_ffff

  /** Kotlin's `Int`. */
  type Int32 = x: int | -0x8000_0000 <= x <= 0x7fff_ffff

  /** The two's-complement value Kotlin's `Int` arithmetic leaves of `x`. */
  function Wrap(x: int): (r: Int32)
    ensures INT_MIN <= x <= INT_MAX ==> r == x
    ensures (r - x) % 0x1_0000_0000 == 0
  {
    (x + 0x8000_0000) % 0x1_0000_0000 - 0x8000_0000
  }

  /** Wrapping commutes with addition: wrapping an operand first changes
      nothing about the wrapped sum. */
  lemma WrapAdd(a: int, b: int)
    ensures Wrap(Wrap(a) + b) == Wrap(a + b)
  {
    var k := (a + 0x8000_0000) / 0x1_0000_0000;
    assert Wrap(a) == a - k * 0x1_0000_0000;
    assert Wrap(a) + b + 0x8000_0000 == (a + b + 0x8000_0000) - k * 0x1_0000_0000;
  }

  /** `Producto(nombre, descripcion, precio, imageUri)`: a catalogue entry; the
      cart embeds a snapshot of it. */
  datatype Producto = Producto(nombre: string, descripcion: string, precio: Int32, imageUri: string)

  /** `ItemCarrito(producto, cantidad)`: one cart line. */
  datatype ItemCarrito = ItemCarrito(producto: Producto, cantidad: Int32)

  /** `Usuario`: a registered user; `correo` is the key profile edits look up,
      `photoUri` is nullable. */
  datatype Usuario = Usuario(
    nombre: string,
    apellido: string,
    rut: string,
    correo: string,
    direccion: string,
    telefono: string,
    contrasena: string,
    photoUri: Option<string>)

  /** `IntentoLogin(correo, exito, horario)`: one entry of the login log; the
      time stamp is an opaque number handed in by the caller. */
  datatype IntentoLogin = IntentoLogin(correo: string, exito: bool, horario: int)
}
