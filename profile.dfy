/** The profile editor: it finds the logged-in user through the session
    e-mail, prefills a form with that user's fields, validates each field as
    it is typed, and on save writes back a copy of the user that keeps the
    e-mail and the password. */
module Profile {
  import opened Lists
  import opened Domain
  import opened Storage
  import opened ValidationUtils

  /** `usuarioActual`: the first stored user whose `correo` is the session
      e-mail; none when the session e-mail is unset or matches no one. */
  function UsuarioActual(email: Option<string>, usuarios: seq<Usuario>): (r: Option<Usuario>)
    ensures r.Some? ==> email.Some? && r.value.correo == email.value && r.value in usuarios
  {
    match email
    case None => None
    case Some(e) => Find(usuarios, MismoCorreo(e))
  }

  /** `usuarioActual.copy(nombre = …, apellido = …, rut = …, direccion = …,
      telefono = …, photoUri = …)`. */
  function UsuarioActualizado(actual: Usuario, nombre: string, apellido: string, rut: string,
                              direccion: string, telefono: string, photoUri: Option<string>): (r: Usuario)
    ensures r.correo == actual.correo && r.contrasena == actual.contrasena
  {
    actual.(nombre := nombre, apellido := apellido, rut := rut, direccion := direccion,
            telefono := telefono, photoUri := photoUri)
  }

  /** `esFormularioValido`: no error flag raised and the five text fields
      non-empty. */
  predicate FormularioValido(isNombreError: bool, isApellidoError: bool, isRutError: bool, isTelefonoError: bool,
                             nombre: string, apellido: string, rut: string, direccion: string, telefono: string)
  {
    && !isNombreError && !isApellidoError && !isRutError && !isTelefonoError
    && nombre != "" && apellido != "" && rut != "" && direccion != "" && telefono != ""
  }

  lemma UsuarioActualSpec(email: Option<string>, usuarios: seq<Usuario>)
    ensures email.None? ==> UsuarioActual(email, usuarios).None?
    ensures email.Some? ==>
      (UsuarioActual(email, usuarios).None? <==> forall k :: 0 <= k < |usuarios| ==> usuarios[k].correo != email.value)
    ensures UsuarioActual(email, usuarios).Some? ==>
      && email.Some?
      && UsuarioActual(email, usuarios).value.correo == email.value
      && exists i :: 0 <= i < |usuarios| && usuarios[i] == UsuarioActual(email, usuarios).value
                     && forall k :: 0 <= k < i ==> usuarios[k].correo != email.value
  {
    if email.Some? {
      var p := MismoCorreo(email.value);
      var i := IndexWhere(usuarios, p);
      if i != -1 {
        assert usuarios[i] == UsuarioActual(email, usuarios).value;
        assert forall k :: 0 <= k < i ==> !p(usuarios[k]);
      }
    }
  }

  /** The saved record changes only the six editable fields; `correo` and
      `contrasena` are those of the current user. */
  lemma UsuarioActualizadoConserva(actual: Usuario, nombre: string, apellido: string, rut: string,
                                   direccion: string, telefono: string, photoUri: Option<string>)
    ensures var r := UsuarioActualizado(actual, nombre, apellido, rut, direccion, telefono, photoUri);
      && r.correo == actual.correo && r.contrasena == actual.contrasena
      && r.nombre == nombre && r.apellido == apellido && r.rut == rut
      && r.direccion == direccion && r.telefono == telefono && r.photoUri == photoUri
  {
  }

  /** Because the saved record keeps `correo`, saving replaces exactly the
      logged-in user's entry (the one the session e-mail found) and keeps
      the directory's length and every other entry. */
  lemma GuardarReemplazaUsuarioActual(usuarios: seq<Usuario>, email: string, actual: Usuario,
                                      nombre: string, apellido: string, rut: string,
                                      direccion: string, telefono: string, photoUri: Option<string>)
    requires UsuarioActual(Some(email), usuarios) == Some(actual)
    ensures var i := IndexWhere(usuarios, MismoCorreo(email));
      && 0 <= i < |usuarios| && usuarios[i] == actual
      && Updated(Present(usuarios), UsuarioActualizado(actual, nombre, apellido, rut, direccion, telefono, photoUri))
         == Present(usuarios[i := UsuarioActualizado(actual, nombre, apellido, rut, direccion, telefono, photoUri)])
  {
    var r := UsuarioActualizado(actual, nombre, apellido, rut, direccion, telefono, photoUri);
    assert actual.correo == email;
    assert r.correo == email;
  }

  /** A saveable form whose flags agree with its fields holds fields that
      pass the validators: names without digits, a RUT of one of the two
      shapes, a nine-digit phone, and a non-empty address (which is never
      validated further). */
  lemma FormularioValidoCamposValidos(isNombreError: bool, isApellidoError: bool, isRutError: bool, isTelefonoError: bool,
                                      nombre: string, apellido: string, rut: string, direccion: string, telefono: string)
    requires isNombreError == !IsValidNombre(nombre) && isApellidoError == !IsValidApellido(apellido)
    requires isRutError == !IsValidRut(rut) && isTelefonoError == !IsValidTelefono(telefono)
    requires FormularioValido(isNombreError, isApellidoError, isRutError, isTelefonoError,
                              nombre, apellido, rut, direccion, telefono)
    ensures forall i :: 0 <= i < |nombre| ==> !IsDigit(nombre[i])
    ensures forall i :: 0 <= i < |apellido| ==> !IsDigit(apellido[i])
    ensures FormaCompacta(rut) || FormaConPuntos(rut)
    ensures 9 <= |rut| <= 12
    ensures |telefono| == 9 && forall i :: 0 <= i < |telefono| ==> '0' <= telefono[i] <= '9'
    ensures direccion != ""
  {
    RutLongitudYFinal(rut);
  }

  /** Prefill does not validate: a stored user whose RUT and phone are not
      well-formed still yields a saveable form when nothing is retyped. */
  lemma PrellenadoSinValidar()
    ensures !IsValidRut("1") && !IsValidTelefono("1")
    ensures FormularioValido(false, false, false, false, "Ana", "Rojas", "1", "Calle 1", "1")
  {
  }

  /** The editor's mutable state. */
  class EditarPerfilForm {
    var nombre: string
    var apellido: string
    var rut: string
    var direccion: string
    var telefono: string
    var imageUri: Option<string>
    var isNombreError: bool
    var isApellidoError: bool
    var isRutError: bool
    var isTelefonoError: bool

    /** Every text field empty, no image, no flag raised. */
    constructor ()
      ensures nombre == "" && apellido == "" && rut == "" && direccion == "" && telefono == ""
      ensures imageUri == None
      ensures !isNombreError && !isApellidoError && !isRutError && !isTelefonoError
    {
      nombre, apellido, rut, direccion, telefono := "", "", "", "", "";
      imageUri := None;
      isNombreError, isApellidoError, isRutError, isTelefonoError := false, false, false, false;
    }

    predicate EsFormularioValido()
      reads this
    {
      FormularioValido(isNombreError, isApellidoError, isRutError, isTelefonoError,
                       nombre, apellido, rut, direccion, telefono)
    }

    /** `LaunchedEffect(usuarioActual)` with a user: copy the stored fields
        (the photo only when there is one) and leave the flags as they are.
        On a fresh form the result is saveable exactly when the five copied
        text fields are non-empty. */
    method Prellenar(u: Usuario)
      modifies this
      ensures nombre == u.nombre && apellido == u.apellido && rut == u.rut
      ensures direccion == u.direccion && telefono == u.telefono
      ensures imageUri == if u.photoUri.Some? then u.photoUri else old(imageUri)
      ensures isNombreError == old(isNombreError) && isApellidoError == old(isApellidoError)
      ensures isRutError == old(isRutError) && isTelefonoError == old(isTelefonoError)
      ensures !old(isNombreError) && !old(isApellidoError) && !old(isRutError) && !old(isTelefonoError) ==>
        (EsFormularioValido() <==> u.nombre != "" && u.apellido != "" && u.rut != "" && u.direccion != "" && u.telefono != "")
    {
      nombre := u.nombre;
      apellido := u.apellido;
      rut := u.rut;
      direccion := u.direccion;
      telefono := u.telefono;
      if u.photoUri.Some? {
        imageUri := u.photoUri;
      }
    }

    method CambiarNombre(text: string)
      modifies this`nombre, this`isNombreError
      ensures nombre == text && isNombreError == !IsValidNombre(text)
    {
      nombre := text;
      isNombreError := !IsValidNombre(text);
    }

    method CambiarApellido(text: string)
      modifies this`apellido, this`isApellidoError
      ensures apellido == text && isApellidoError == !IsValidApellido(text)
    {
      apellido := text;
      isApellidoError := !IsValidApellido(text);
    }

    method CambiarRut(text: string)
      modifies this`rut, this`isRutError
      ensures rut == text && isRutError == !IsValidRut(text)
    {
      rut := text;
      isRutError := !IsValidRut(text);
    }

    /** The address is never validated. */
    method CambiarDireccion(text: string)
      modifies this`direccion
      ensures direccion == text
    {
      direccion := text;
    }

    method CambiarTelefono(text: string)
      modifies this`telefono, this`isTelefonoError
      ensures telefono == text && isTelefonoError == !IsValidTelefono(text)
    {
      telefono := text;
      isTelefonoError := !IsValidTelefono(text);
    }

    /** The save button's `onClick`; the button is enabled only while the
        form is valid. When `usuarioActual` is still the session's user,
        exactly that entry is replaced. */
    method Guardar(userStorage: UserStorage, usuarioActual: Usuario)
      requires EsFormularioValido()
      modifies userStorage
      ensures userStorage.usuarios == Updated(old(userStorage.usuarios),
        UsuarioActualizado(usuarioActual, nombre, apellido, rut, direccion, telefono, imageUri))
      ensures |userStorage.UsuariosFlow()| == |old(userStorage.UsuariosFlow())|
      ensures UsuarioActual(old(userStorage.emailUsuarioLogueado), old(userStorage.UsuariosFlow())) == Some(usuarioActual) ==>
        var i := IndexWhere(old(userStorage.UsuariosFlow()), MismoCorreo(usuarioActual.correo));
        && 0 <= i
        && userStorage.UsuariosFlow() == old(userStorage.UsuariosFlow())[i :=
             UsuarioActualizado(usuarioActual, nombre, apellido, rut, direccion, telefono, imageUri)]
      ensures userStorage.intentos == old(userStorage.intentos) && userStorage.productos == old(userStorage.productos)
      ensures userStorage.carrito == old(userStorage.carrito)
      ensures userStorage.emailUsuarioLogueado == old(userStorage.emailUsuarioLogueado)
    {
      var usuarioActualizado := UsuarioActualizado(usuarioActual, nombre, apellido, rut, direccion, telefono, imageUri);
      ghost var antes := userStorage.UsuariosFlow();
      ghost var email := userStorage.emailUsuarioLogueado;
      if UsuarioActual(email, antes) == Some(usuarioActual) {
        GuardarReemplazaUsuarioActual(antes, email.value, usuarioActual, nombre, apellido, rut, direccion, telefono, imageUri);
        assert userStorage.usuarios == Present(antes);
      }
      userStorage.ActualizarUsuario(usuarioActualizado);
    }
  }
}
