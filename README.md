# TCGStore core, modelled in Dafny

TCGStore is an Android storefront for trading-card games. This project models
the device-local core behind its screens and proves properties of it:

- **`UserStorage`**: the preference container behind every screen. It has five
  string keys. Four of them hold a JSON-encoded list: users, login attempts,
  products and the cart. The fifth is the session key: it holds the
  e-mail of the logged-in user. Readers decode a list, or fall back to the
  empty list when the key is absent or its blob does not decode. Writers
  rewrite one key in a single atomic edit. Modelled as the class
  `Storage.UserStorage`, with one field per key.
- **`CarritoViewModel`**: the shopping cart. Each operation re-reads the
  stored cart, edits a copy and writes the whole list back. Cart lines are
  matched by product name. Quantities are Kotlin `Int`, so `cantidad + 1` and
  the screen's price total (`sumOf { precio * cantidad }`) wrap around at
  32 bits. The model writes that wrap-around out.
- **`ValidationUtils`**: the form-field validators.
  - Names and surnames must contain no decimal digit of the Basic
    Multilingual Plane (Kotlin tests each UTF-16 unit, so a digit outside
    that plane passes).
  - A RUT (Chilean tax id) takes one of two regular-expression shapes.
  - A phone number is nine ASCII digits.
  - The password pattern uses three lookaheads.
  - The regular expressions run on a small whole-string matcher (module
    `Regex`). Lemmas tie each pattern to a plain positional description.
- **The login handler** of `LoginScreen`:
  - the two fixed administrator credentials win;
  - otherwise a stored user with the same e-mail and password gets in, and
    their e-mail becomes the session e-mail;
  - otherwise an error message is shown;
  - every click appends one attempt to the log.
- **The profile editor** of `EditarPerfilScreen`. It:
  - looks up the current user through the session e-mail;
  - prefills the form from that user;
  - validates each field as it is typed;
  - saves a copy of the user that keeps `correo` and `contrasena`.
- **`ApiConstants`**: the two service base URLs and `getImageUrl`.

The record types are `Usuario`, `IntentoLogin`, `Producto` and `ItemCarrito`.
The last is declared in `UserStorage.kt`. The other three are declared in
files this model does not cover. Their shapes are taken from their uses and
from the English-named twins in `data/models.kt`:
- `Usuario` mirrors `User`.
- `IntentoLogin(correo, exito, horario)` mirrors
  `LoginAttempt(correo, success, timestamp)`.
- `Producto(nombre, descripcion, precio, imageUri)` is built in
  `TiendaScreen.kt`.

Notable behaviours of the code, which the model keeps:
- `actualizarUsuario` replaces only the first user with a matching e-mail.
- It writes nothing when the key is absent, undecodable or has no match.
- `guardarUsuario` does not check for duplicate e-mails.
- `vaciarCarrito` removes the key rather than writing an empty list.
- `disminuirCantidad` deletes a line at quantity 1 by structural equality.
- The login handler calls `usersFlow`, `addLoginAttempt` and
  `saveLoggedInUserEmail`, which `UserStorage.kt` does not declare. They are
  modelled as `usuariosFlow`, `agregarIntentoLogin` and
  `guardarEmailUsuarioLogueado`.

## Model

| member | source | states |
|---|---|---|
| Lists.IndexWhere | app/src/main/java/com/example/tcgstore/data/UserStorage.kt:95 | `indexOfFirst`: -1 exactly when no element satisfies the predicate; otherwise the index satisfies it and no earlier index does |
| Lists.Find | app/src/main/java/com/example/tcgstore/ui/cart/CarritoViewModel.kt:30 | `find`: null exactly when no element matches; otherwise the element at the first matching index, which is in the list |
| Lists.IndexOf | app/src/main/java/com/example/tcgstore/ui/cart/CarritoViewModel.kt:34 | `indexOf`: -1 exactly when the element is absent; otherwise an index holding it with no earlier occurrence |
| Lists.RemoveAt | app/src/main/java/com/example/tcgstore/ui/cart/CarritoViewModel.kt:76 | removing at an index drops that element and keeps the order of the rest, one shorter |
| Lists.Remove | app/src/main/java/com/example/tcgstore/ui/cart/CarritoViewModel.kt:46 | `MutableList.remove`: no change when the element is absent; otherwise one fewer element, exactly one occurrence of it gone |
| Lists.IndexOfFound | app/src/main/java/com/example/tcgstore/ui/cart/CarritoViewModel.kt:30-35 | `indexOf(find{…})` lands on the same index `find` used, so the in-place replacement hits the found line |
| Domain.Wrap | app/src/main/java/com/example/tcgstore/ui/cart/CarritoViewModel.kt:33 | Kotlin `Int` arithmetic: a value in range is kept; otherwise the result is congruent to the exact value modulo 2^32 |
| Domain.WrapAdd | app/src/main/java/com/example/tcgstore/ui/cart/CarritoScreen.kt:41 | wrapping a partial sum first does not change the wrapped total |
| Storage.KeysDistinct | app/src/main/java/com/example/tcgstore/data/UserStorage.kt:22-28 | the five preference keys are pairwise distinct |
| Storage.Decoded | app/src/main/java/com/example/tcgstore/data/UserStorage.kt:36-47 | a read gives the empty list for an absent key or an undecodable blob, and the encoded list otherwise |
| Storage.Appended | app/src/main/java/com/example/tcgstore/data/UserStorage.kt:66-81 | the append-style read-modify-write leaves a decodable list one longer: everything readable before, then the new element |
| Storage.AppendedGrows | app/src/main/java/com/example/tcgstore/data/UserStorage.kt:66-81 | the append-style writers keep everything readable before and add the new element once at the end; an undecodable blob is replaced by the one-element list |
| Storage.RegisterDoesNotKeepCorreosUnicos | app/src/main/java/com/example/tcgstore/data/UserStorage.kt:66-81 | registering an e-mail that is already stored yields two users with that e-mail |
| Storage.Updated | app/src/main/java/com/example/tcgstore/data/UserStorage.kt:83-101 | an absent or undecodable users key is left as it was; a decodable one keeps its length, and each entry is either the old one or the new user |
| Storage.UpdateReplacesFirstMatch | app/src/main/java/com/example/tcgstore/data/UserStorage.kt:95-99 | an update replaces exactly the first user with the same e-mail, keeps length and every other entry, and writes nothing without a match |
| Storage.UpdatePreservesCorreosUnicos | app/src/main/java/com/example/tcgstore/data/UserStorage.kt:95-99 | an update keeps a duplicate-free directory duplicate-free |
| Storage.UserStorage.constructor | app/src/main/java/com/example/tcgstore/data/UserStorage.kt:20 | the container starts with the given contents of its five keys |
| Storage.UserStorage.CarritoFlow | app/src/main/java/com/example/tcgstore/data/UserStorage.kt:36-47 | `carritoFlow`: the stored cart, or the empty list when the key is absent or undecodable |
| Storage.UserStorage.UsuariosFlow | app/src/main/java/com/example/tcgstore/data/UserStorage.kt:103-114 | `usuariosFlow`: the stored users, or the empty list when the key is absent or undecodable |
| Storage.UserStorage.IntentoLoginFlow | app/src/main/java/com/example/tcgstore/data/UserStorage.kt:134-145 | `intentoLoginFlow`: the stored attempt log, or the empty list when the key is absent or undecodable |
| Storage.UserStorage.ProductosFlow | app/src/main/java/com/example/tcgstore/data/UserStorage.kt:165-176 | `productosFlow`: the stored catalogue, or the empty list when the key is absent or undecodable |
| Storage.UserStorage.EmailUsuarioLogueadoFlow | app/src/main/java/com/example/tcgstore/data/UserStorage.kt:61-63 | `emailUsuarioLogueadoFlow`: the session e-mail, null exactly when it was never written |
| Storage.UserStorage.GuardarCarrito | app/src/main/java/com/example/tcgstore/data/UserStorage.kt:30-34 | the cart key holds the list, the next read returns it, the other keys are untouched |
| Storage.UserStorage.VaciarCarrito | app/src/main/java/com/example/tcgstore/data/UserStorage.kt:49-53 | the cart key is removed, the next read is empty, the other keys are untouched |
| Storage.UserStorage.GuardarEmailUsuarioLogueado | app/src/main/java/com/example/tcgstore/data/UserStorage.kt:55-63 | the session read returns the e-mail written last, the other keys are untouched |
| Storage.UserStorage.GuardarUsuario | app/src/main/java/com/example/tcgstore/data/UserStorage.kt:66-81 | the users read afterwards is the old read plus the new user at the end, the other keys are untouched |
| Storage.UserStorage.ActualizarUsuario | app/src/main/java/com/example/tcgstore/data/UserStorage.kt:83-101 | the users key becomes the first-match replacement (or stays as it was), its length is kept, the other keys are untouched |
| Storage.UserStorage.AgregarIntentoLogin | app/src/main/java/com/example/tcgstore/data/UserStorage.kt:117-145 | the attempt log read afterwards is the old log plus the new attempt, the other keys are untouched |
| Storage.UserStorage.GuardarProducto | app/src/main/java/com/example/tcgstore/data/UserStorage.kt:148-176 | the catalogue read afterwards is the old catalogue plus the new product, the other keys are untouched |
| Cart.Inc | app/src/main/java/com/example/tcgstore/ui/cart/CarritoViewModel.kt:33 | `cantidad + 1` in `Int`: one more below `Int.MAX_VALUE`, `Int.MIN_VALUE` at it |
| Cart.Agregar | app/src/main/java/com/example/tcgstore/ui/cart/CarritoViewModel.kt:27-41 | the written cart is one longer exactly when no line has the product's name, the same length otherwise, and always holds a line with that name |
| Cart.Aumentar | app/src/main/java/com/example/tcgstore/ui/cart/CarritoViewModel.kt:51-63 | nothing is written exactly when no line has the name; otherwise the written cart has the same length |
| Cart.Disminuir | app/src/main/java/com/example/tcgstore/ui/cart/CarritoViewModel.kt:65-81 | nothing is written exactly when no line has the name; otherwise the written cart has the same length or is one shorter |
| Cart.Borrar | app/src/main/java/com/example/tcgstore/ui/cart/CarritoViewModel.kt:43-49 | the cart is unchanged when no line equals the item; otherwise one line equal to it is gone and nothing else |
| Cart.IndiceNombreUnico | app/src/main/java/com/example/tcgstore/ui/cart/CarritoViewModel.kt:30 | in a valid cart the name search finds the only line of that name |
| Cart.RemoveFound | app/src/main/java/com/example/tcgstore/ui/cart/CarritoViewModel.kt:68-76 | removing the found line by equality drops exactly the line at the index the name search found |
| Cart.AgregarNuevo | app/src/main/java/com/example/tcgstore/ui/cart/CarritoViewModel.kt:36-38 | adding a product not in the cart appends one line with quantity 1 |
| Cart.AgregarExistente | app/src/main/java/com/example/tcgstore/ui/cart/CarritoViewModel.kt:30-35 | adding a product already in the cart keeps the length, raises the first matching line by one (keeping its old product snapshot) and leaves every other line alone |
| Cart.AumentarEsAgregar | app/src/main/java/com/example/tcgstore/ui/cart/CarritoViewModel.kt:51-63 | increasing writes nothing exactly when the name is absent, and otherwise writes what adding that product would |
| Cart.DisminuirDecrementa | app/src/main/java/com/example/tcgstore/ui/cart/CarritoViewModel.kt:71-74 | decreasing a line above 1 lowers exactly that line by one |
| Cart.DisminuirQuita | app/src/main/java/com/example/tcgstore/ui/cart/CarritoViewModel.kt:65-81 | decreasing a line at 1 removes it and keeps the order of the rest; an absent name writes nothing |
| Cart.BorrarQuitaPrimero | app/src/main/java/com/example/tcgstore/ui/cart/CarritoViewModel.kt:43-49 | deleting a line removes only the first equal line, and nothing when there is none |
| Cart.AgregarPreservesValido | app/src/main/java/com/example/tcgstore/ui/cart/CarritoViewModel.kt:27-41 | adding keeps names unique and quantities positive, as long as no line sits at `Int.MAX_VALUE` |
| Cart.AumentarPreservesValido | app/src/main/java/com/example/tcgstore/ui/cart/CarritoViewModel.kt:51-63 | increasing keeps the cart valid under the same bound |
| Cart.DisminuirPreservesValido | app/src/main/java/com/example/tcgstore/ui/cart/CarritoViewModel.kt:65-81 | decreasing keeps the cart valid |
| Cart.BorrarPreservesValido | app/src/main/java/com/example/tcgstore/ui/cart/CarritoViewModel.kt:43-49 | deleting keeps the cart valid |
| Cart.AgregarCantidadTotal | app/src/main/java/com/example/tcgstore/ui/cart/CarritoViewModel.kt:27-41 | every add puts exactly one more unit in the cart, below the wrap-around |
| Cart.DisminuirCantidadTotal | app/src/main/java/com/example/tcgstore/ui/cart/CarritoViewModel.kt:65-81 | every decrease that writes takes exactly one unit out of a valid cart |
| Cart.AgregarEnElTope | app/src/main/java/com/example/tcgstore/ui/cart/CarritoViewModel.kt:33 | one more add at `Int.MAX_VALUE` wraps the quantity to `Int.MIN_VALUE` and breaks the cart invariant |
| Cart.EjemploAgregarDisminuir | app/src/main/java/com/example/tcgstore/ui/cart/CarritoViewModel.kt:27-81 | add, add, decrease, decrease goes from one line at 1 to 2, back to 1, then to the empty cart |
| Cart.PrecioTotal | app/src/main/java/com/example/tcgstore/ui/cart/CarritoScreen.kt:41 | the displayed total is the exact sum of price times quantity, wrapped to `Int`; it is that exact sum whenever it fits |
| Cart.CarritoViewModel.constructor | app/src/main/java/com/example/tcgstore/ui/cart/CarritoViewModel.kt:14-17 | the observed cart starts empty over the given store |
| Cart.CarritoViewModel.Observar | app/src/main/java/com/example/tcgstore/ui/cart/CarritoViewModel.kt:19-25 | one emission of the collector: the observed cart is the stored cart as read now |
| Cart.CarritoViewModel.AgregarAlCarrito | app/src/main/java/com/example/tcgstore/ui/cart/CarritoViewModel.kt:27-41 | the stored cart becomes the add of the product to the cart read before, the other keys are untouched |
| Cart.CarritoViewModel.BorrarDelCarrito | app/src/main/java/com/example/tcgstore/ui/cart/CarritoViewModel.kt:43-49 | the stored cart becomes the cart read before without its first equal line |
| Cart.CarritoViewModel.AumentarCantidad | app/src/main/java/com/example/tcgstore/ui/cart/CarritoViewModel.kt:51-63 | the stored cart is untouched when the name is absent, and otherwise becomes the cart with that line raised |
| Cart.CarritoViewModel.DisminuirCantidad | app/src/main/java/com/example/tcgstore/ui/cart/CarritoViewModel.kt:65-81 | the stored cart is untouched when the name is absent, and otherwise becomes the cart with that line lowered or removed |
| Cart.CarritoViewModel.BorrarCarrito | app/src/main/java/com/example/tcgstore/ui/cart/CarritoViewModel.kt:83-87 | the cart key is removed and the next read is empty |
| Cart.EjemploSecuencia | app/src/main/java/com/example/tcgstore/ui/cart/CarritoViewModel.kt:19-81 | on a fresh store, add A twice and decrease twice, and the observed cart is empty |
| Regex.MatchesRepLast | app/src/main/java/com/example/tcgstore/utils/ValidationUtils.kt:24 | a bounded repetition that ends the pattern matches exactly the strings of its class with a length in bounds |
| Regex.LookaheadFinds | app/src/main/java/com/example/tcgstore/utils/ValidationUtils.kt:28 | `(?=.*X)` holds exactly when a character of class X occurs before any line terminator |
| ValidationUtils.IsDigit | app/src/main/java/com/example/tcgstore/utils/ValidationUtils.kt:8 | `Char.isDigit()`: every ASCII digit is a digit, and every digit lies in the Basic Multilingual Plane |
| ValidationUtils.ContainsDigit | app/src/main/java/com/example/tcgstore/utils/ValidationUtils.kt:8 | `any { isDigit() }` holds exactly when some position holds a digit |
| ValidationUtils.IsValidNombre | app/src/main/java/com/example/tcgstore/utils/ValidationUtils.kt:7-9 | a name is valid exactly when none of its characters is a digit |
| ValidationUtils.IsValidApellido | app/src/main/java/com/example/tcgstore/utils/ValidationUtils.kt:11-13 | a surname is valid exactly when none of its characters is a digit, the same test as for names |
| ValidationUtils.DigitosReconocidos | app/src/main/java/com/example/tcgstore/utils/ValidationUtils.kt:8 | ASCII digits and other scripts' digits (Arabic-Indic, fullwidth) count as digits; letters and `-` do not |
| ValidationUtils.RutCompacto | app/src/main/java/com/example/tcgstore/utils/ValidationUtils.kt:16 | the first alternative matches exactly 7 or 8 ASCII digits, a dash and a digit, `k` or `K` |
| ValidationUtils.RutConPuntos | app/src/main/java/com/example/tcgstore/utils/ValidationUtils.kt:16 | the second alternative matches exactly 1 or 2 digits, a dot, 3 digits, a dot, 3 digits, a dash and a check character |
| ValidationUtils.IsValidRut | app/src/main/java/com/example/tcgstore/utils/ValidationUtils.kt:15-17 | a RUT is valid exactly when it has one of the two shapes: 7 or 8 digits, a dash and a check character; or 1 or 2 digits and two dot-separated groups of 3, a dash and a check character |
| ValidationUtils.RutLongitudYFinal | app/src/main/java/com/example/tcgstore/utils/ValidationUtils.kt:15-17 | a valid RUT has 9 to 12 characters and ends in a digit, `k` or `K` |
| ValidationUtils.IsValidTelefono | app/src/main/java/com/example/tcgstore/utils/ValidationUtils.kt:23-25 | a phone is valid exactly when it is nine ASCII digits |
| ValidationUtils.TelefonoNoEsNombre | app/src/main/java/com/example/tcgstore/utils/ValidationUtils.kt:7-25 | a valid phone is never a valid name |
| ValidationUtils.IsValidContrasena | app/src/main/java/com/example/tcgstore/utils/ValidationUtils.kt:27-29 | a password is valid exactly when it has at least 8 characters, no line terminator, and a lower-case letter, an upper-case letter and one of `@$!%*?&._-` |
| ValidationUtils.ContrasenaSinDigito | app/src/main/java/com/example/tcgstore/utils/ValidationUtils.kt:27-29 | a password with no digit at all can be valid |
| ValidationUtils.ContrasenasIguales | app/src/main/java/com/example/tcgstore/utils/ValidationUtils.kt:31-33 | the confirmation check compares contents: equal length and the same character at every position |
| ValidationUtils.ContrasenasIgualesSpec | app/src/main/java/com/example/tcgstore/utils/ValidationUtils.kt:31-33 | the confirmation check is string equality: reflexive, symmetric, and true only for equal strings |
| Login.Decidir | app/src/main/java/com/example/tcgstore/ui/login/LoginScreen.kt:142-156 | admin exactly for the two fixed strings; welcome only when some stored user matches both fields |
| Login.DecidirSpec | app/src/main/java/com/example/tcgstore/ui/login/LoginScreen.kt:142-156 | admin exactly for the two fixed strings, taking precedence; welcome exactly when not admin and some stored user matches both fields; failure otherwise |
| Login.UsuarioEncontradoTieneCorreo | app/src/main/java/com/example/tcgstore/ui/login/LoginScreen.kt:143-152 | the matched user is stored under the typed e-mail, so that e-mail becomes the session e-mail |
| Login.LoginForm.constructor | app/src/main/java/com/example/tcgstore/ui/login/LoginScreen.kt:61-68 | both fields empty, no error flags, no login error |
| Login.LoginForm.ValidateContrasena | app/src/main/java/com/example/tcgstore/ui/login/LoginScreen.kt:74-76 | the password flag is raised exactly when the text is shorter than 6 |
| Login.LoginForm.ValidateCorreo | app/src/main/java/com/example/tcgstore/ui/login/LoginScreen.kt:70-72 | the e-mail flag is the negation of the platform e-mail check |
| Login.LoginForm.CambiarCorreo | app/src/main/java/com/example/tcgstore/ui/login/LoginScreen.kt:107-111 | the e-mail is set, revalidated, and the login error is cleared |
| Login.LoginForm.CambiarContrasena | app/src/main/java/com/example/tcgstore/ui/login/LoginScreen.kt:118-122 | the password is set, revalidated, and the login error is cleared |
| Login.LoginForm.IniciarSesion | app/src/main/java/com/example/tcgstore/ui/login/LoginScreen.kt:140-157 | the destination is the decision on the users read before; one attempt with success = not failure is appended; the session e-mail is set only on a user login; the error is shown only on failure |
| Profile.UsuarioActual | app/src/main/java/com/example/tcgstore/ui/Profile/EditarPerfilScreen.kt:79 | a found user is stored and carries the session e-mail, and nothing is found without a session e-mail |
| Profile.UsuarioActualizado | app/src/main/java/com/example/tcgstore/ui/Profile/EditarPerfilScreen.kt:265-272 | the saved copy keeps the current user's `correo` and `contrasena` |
| Profile.FormularioValido | app/src/main/java/com/example/tcgstore/ui/Profile/EditarPerfilScreen.kt:137-138 | `esFormularioValido`: no error flag raised and the five text fields non-empty |
| Profile.UsuarioActualSpec | app/src/main/java/com/example/tcgstore/ui/Profile/EditarPerfilScreen.kt:77-79 | the current user is the first stored user with the session e-mail; none when the session e-mail is null or matches no one |
| Profile.UsuarioActualizadoConserva | app/src/main/java/com/example/tcgstore/ui/Profile/EditarPerfilScreen.kt:265-272 | the saved record replaces only the six editable fields and keeps `correo` and `contrasena` |
| Profile.GuardarReemplazaUsuarioActual | app/src/main/java/com/example/tcgstore/ui/Profile/EditarPerfilScreen.kt:265-273 | saving replaces exactly the logged-in user's entry and keeps the directory's length |
| Profile.FormularioValidoCamposValidos | app/src/main/java/com/example/tcgstore/ui/Profile/EditarPerfilScreen.kt:137-138 | a saveable form whose flags match its fields has digit-free names, a well-shaped RUT, a nine-digit phone and a non-empty address |
| Profile.PrellenadoSinValidar | app/src/main/java/com/example/tcgstore/ui/Profile/EditarPerfilScreen.kt:124-138 | prefill does not validate: a stored user with a malformed RUT and phone still gives a saveable form |
| Profile.EditarPerfilForm.constructor | app/src/main/java/com/example/tcgstore/ui/Profile/EditarPerfilScreen.kt:81-91 | every text field empty, no image, all four flags false |
| Profile.EditarPerfilForm.Prellenar | app/src/main/java/com/example/tcgstore/ui/Profile/EditarPerfilScreen.kt:124-135 | the five fields are copied, the photo only when there is one, the flags are kept; on clear flags the form is saveable exactly when the copied fields are non-empty |
| Profile.EditarPerfilForm.CambiarNombre | app/src/main/java/com/example/tcgstore/ui/Profile/EditarPerfilScreen.kt:210-212 | the name is set and its flag is the negation of the name check |
| Profile.EditarPerfilForm.CambiarApellido | app/src/main/java/com/example/tcgstore/ui/Profile/EditarPerfilScreen.kt:221-223 | the surname is set and its flag is the negation of the surname check |
| Profile.EditarPerfilForm.CambiarRut | app/src/main/java/com/example/tcgstore/ui/Profile/EditarPerfilScreen.kt:232-234 | the RUT is set and its flag is the negation of the RUT check |
| Profile.EditarPerfilForm.CambiarDireccion | app/src/main/java/com/example/tcgstore/ui/Profile/EditarPerfilScreen.kt:243 | the address is set and never validated |
| Profile.EditarPerfilForm.CambiarTelefono | app/src/main/java/com/example/tcgstore/ui/Profile/EditarPerfilScreen.kt:250-252 | the phone is set and its flag is the negation of the phone check |
| Profile.EditarPerfilForm.Guardar | app/src/main/java/com/example/tcgstore/ui/Profile/EditarPerfilScreen.kt:262-278 | enabled only on a valid form; the users key becomes the update with the edited copy, its length is kept, and when the user is still the session's, exactly their entry is replaced |
| ApiConstants.RemovePrefix | app/src/main/java/com/example/tcgstore/data/network/ApiConstants.kt:13 | `removePrefix`: the prefix is dropped once when present, otherwise the string is unchanged |
| ApiConstants.GetImageUrl | app/src/main/java/com/example/tcgstore/data/network/ApiConstants.kt:12-14 | the URL starts with the main base and is the base's length plus the path's, less at most one |
| ApiConstants.GetImageUrlSpec | app/src/main/java/com/example/tcgstore/data/network/ApiConstants.kt:12-14 | the URL starts with `http://13.216.97.34:8080/`, continues with the path minus at most one leading slash, and its length drops by one exactly when the path starts with `/` |
| ApiConstants.UnaSolaBarra | app/src/main/java/com/example/tcgstore/data/network/ApiConstants.kt:13 | only one slash is stripped: `"/" + p` maps to the base plus `p`, and `"//x"` keeps its second slash |
| ApiConstants.BasesDifierenSoloEnPuerto | app/src/main/java/com/example/tcgstore/data/network/ApiConstants.kt:5-9 | the two base URLs share scheme, host and length and differ only in the last port digit |

## Left out

- Compose rendering, navigation, Toasts, and the camera, gallery and permission launchers are UI and device features. So is the image file they create. As a result, the profile editor's `imageUri` only changes through prefill.
- The network services (`AuthRepository`, `ProductRepository`, Retrofit) and the server-side catalogue are out of scope. `getImageUrl` is modelled only as a string function.
- Coroutines and `Flow` concurrency are not modelled. Each handler is one atomic step over the store, and a `*Flow` read is one emission. Two consequences:
  - The race between concurrent read-modify-write cycles is not modelled.
  - The login screen's collected user list starts as an empty list before the first emission. The model reads the stored list at click time.
- The JSON codec is abstract. A list key is absent, undecodable, or holds the encoding of a list. Decoding an encoding gives the list back.
- `isValidCorreo` and the login screen's e-mail check (`Patterns.EMAIL_ADDRESS`) are a platform pattern. The model takes it as a parameter of the login form.
- Time stamps are not modelled. The attempt's time is passed in by the caller.
- Login.LoginForm.ValidateContrasena: measures length in characters (Unicode scalar values). Kotlin's `text.length` counts UTF-16 code units, so a password with characters outside the Basic Multilingual Plane is counted shorter here.
- ValidationUtils.IsDigit: lists the decimal-digit blocks of the Basic Multilingual Plane for one Unicode version. The platform's table may differ in other versions.
- The English-named duplicate screens (`EditProfileScreen`, `ProfileScreen`, `RegistroScreen`, `OrdersScreen`, `StoreScreen`, `AddProductScreen`) and the `Order` type are left out. They are alternative screens over a differently named store API, and `Order` carries a floating-point total.
- A logout operation that clears the session e-mail does not exist in `UserStorage.kt`, so it is not modelled.
- The declarations of `Usuario`, `IntentoLogin` and `Producto` are in files this model does not cover. Their fields are reconstructed from their uses.
- `Uri.parse(s).toString()` in the profile editor is taken to return `s`.
