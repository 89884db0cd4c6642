/** The login screen's state and its button handler: one click logs an
    attempt, then lets the administrator in, or a registered user (whose
    e-mail becomes the session e-mail), or shows an error. */
module Login {
  import opened Lists
  import opened Domain
  import opened Storage

  const ADMIN_CORREO: string := "admin@tcg.cl"
  const ADMIN_CONTRASENA: string := "admin"
  const MENSAJE_ERROR: string := "Correo o contraseña incorrectos"

  /** Where the click navigates: `"admin"`, `"welcome"`, or nowhere. */
  datatype Destino = PantallaAdmin | PantallaBienvenida | SinNavegar

  predicate EsAdmin(correo: string, contrasena: string)
  {
    correo == ADMIN_CORREO && contrasena == ADMIN_CONTRASENA
  }

  function Credenciales(correo: string, contrasena: string): Usuario -> bool
  {
    (u: Usuario) => u.correo == correo && u.contrasena == contrasena
  }

  /** The decision the handler takes on the users it has observed. */
  function Decidir(usuarios: seq<Usuario>, correo: string, contrasena: string): (r: Destino)
    ensures r == PantallaAdmin <==> correo == ADMIN_CORREO && contrasena == ADMIN_CONTRASENA
    ensures r == PantallaBienvenida ==> exists i :: 0 <= i < |usuarios| && usuarios[i].correo == correo && usuarios[i].contrasena == contrasena
  {
    if EsAdmin(correo, contrasena) then PantallaAdmin
    else if Find(usuarios, Credenciales(correo, contrasena)).Some? then PantallaBienvenida
    else SinNavegar
  }

  /** Admin is recognised by the two fixed strings alone and takes precedence
      over a stored user with the same credentials; a user gets in exactly
      when some stored user matches both `correo` and `contrasena`; everyone
      else fails. */
  lemma DecidirSpec(usuarios: seq<Usuario>, correo: string, contrasena: string)
    ensures Decidir(usuarios, correo, contrasena) == PantallaAdmin <==>
      correo == "admin@tcg.cl" && contrasena == "admin"
    ensures Decidir(usuarios, correo, contrasena) == PantallaBienvenida <==>
      && !(correo == "admin@tcg.cl" && contrasena == "admin")
      && exists i :: 0 <= i < |usuarios| && usuarios[i].correo == correo && usuarios[i].contrasena == contrasena
    ensures Decidir(usuarios, correo, contrasena) == SinNavegar <==>
      && !(correo == "admin@tcg.cl" && contrasena == "admin")
      && forall i :: 0 <= i < |usuarios| ==> !(usuarios[i].correo == correo && usuarios[i].contrasena == contrasena)
  {
    var p := Credenciales(correo, contrasena);
    if exists i :: 0 <= i < |usuarios| && usuarios[i].correo == correo && usuarios[i].contrasena == contrasena {
      var i :| 0 <= i < |usuarios| && usuarios[i].correo == correo && usuarios[i].contrasena == contrasena;
      assert p(usuarios[i]);
    }
  }

  /** The user found by the credential search is stored under the typed
      e-mail, so the session e-mail it sets is that e-mail. */
  lemma UsuarioEncontradoTieneCorreo(usuarios: seq<Usuario>, correo: string, contrasena: string)
    requires Find(usuarios, Credenciales(correo, contrasena)).Some?
    ensures Find(usuarios, Credenciales(correo, contrasena)).value.correo == correo
    ensures Find(usuarios, Credenciales(correo, contrasena)).value in usuarios
  {
  }

  /** The screen's mutable state. `esCorreoValido` stands for the platform's
      e-mail pattern, which is not part of this model. */
  class LoginForm {
    const esCorreoValido: string -> bool
    var correo: string
    var contrasena: string
    var isCorreoError: bool
    var isContrasenaError: bool
    var loginError: Option<string>

    constructor (esCorreoValido: string -> bool)
      ensures this.esCorreoValido == esCorreoValido
      ensures correo == "" && contrasena == ""
      ensures !isCorreoError && !isContrasenaError && loginError == None
    {
      this.esCorreoValido := esCorreoValido;
      correo, contrasena := "", "";
      isCorreoError, isContrasenaError := false, false;
      loginError := None;
    }

    /** `validateContraseña`: the password is flagged when shorter than 6. */
    method ValidateContrasena(text: string)
      modifies this
      ensures isContrasenaError == (|text| < 6)
      ensures correo == old(correo) && contrasena == old(contrasena)
      ensures isCorreoError == old(isCorreoError) && loginError == old(loginError)
    {
      isContrasenaError := |text| < 6;
    }

    method ValidateCorreo(text: string)
      modifies this
      ensures isCorreoError == !esCorreoValido(text)
      ensures correo == old(correo) && contrasena == old(contrasena)
      ensures isContrasenaError == old(isContrasenaError) && loginError == old(loginError)
    {
      isCorreoError := !esCorreoValido(text);
    }

    /** The e-mail field's `onValueChange`. */
    method CambiarCorreo(text: string)
      modifies this
      ensures correo == text && isCorreoError == !esCorreoValido(text) && loginError == None
      ensures contrasena == old(contrasena) && isContrasenaError == old(isContrasenaError)
    {
      correo := text;
      ValidateCorreo(text);
      loginError := None;
    }

    /** The password field's `onValueChange`. */
    method CambiarContrasena(text: string)
      modifies this
      ensures contrasena == text && isContrasenaError == (|text| < 6) && loginError == None
      ensures correo == old(correo) && isCorreoError == old(isCorreoError)
    {
      contrasena := text;
      ValidateContrasena(text);
      loginError := None;
    }

    /** The login button's `onClick`. The error flags do not gate it. */
    method IniciarSesion(userStorage: UserStorage, horario: int) returns (destino: Destino)
      modifies this, userStorage
      ensures destino == Decidir(old(userStorage.UsuariosFlow()), correo, contrasena)
      ensures userStorage.intentos == Appended(old(userStorage.intentos), IntentoLogin(correo, destino != SinNavegar, horario))
      ensures userStorage.IntentoLoginFlow() == old(userStorage.IntentoLoginFlow()) + [IntentoLogin(correo, destino != SinNavegar, horario)]
      ensures destino == PantallaBienvenida ==> userStorage.emailUsuarioLogueado == Some(correo)
      ensures destino != PantallaBienvenida ==> userStorage.emailUsuarioLogueado == old(userStorage.emailUsuarioLogueado)
      ensures destino == SinNavegar ==> loginError == Some(MENSAJE_ERROR)
      ensures destino != SinNavegar ==> loginError == old(loginError)
      ensures correo == old(correo) && contrasena == old(contrasena)
      ensures isCorreoError == old(isCorreoError) && isContrasenaError == old(isContrasenaError)
      ensures userStorage.usuarios == old(userStorage.usuarios) && userStorage.productos == old(userStorage.productos)
      ensures userStorage.carrito == old(userStorage.carrito)
    {
      var usuarios := userStorage.UsuariosFlow();
      var isAdmin := correo == ADMIN_CORREO && contrasena == ADMIN_CONTRASENA;
      var user := Find(usuarios, Credenciales(correo, contrasena));
      var isUser := user.Some?;

      var attempt := IntentoLogin(correo, isAdmin || isUser, horario);
      userStorage.AgregarIntentoLogin(attempt);

      if isAdmin {
        destino := PantallaAdmin;
      } else if isUser {
        userStorage.GuardarEmailUsuarioLogueado(user.value.correo);
        destino := PantallaBienvenida;
      } else {
        loginError := Some(MENSAJE_ERROR);
        destino := SinNavegar;
      }
    }
  }
}
