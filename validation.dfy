/** `ValidationUtils`: the field checks of the registration and profile forms.
    `isValidCorreo` delegates to the platform's e-mail pattern, which is not
    part of this model; the form that uses it takes it as a parameter. */
module ValidationUtils {
  import opened Regex

  /** `n` lies in the block of ten decimal digits starting at `zero`. */
  predicate DigitBlock(n: int, zero: int)
  {
    zero <= n < zero + 10
  }

  /** `Char.isDigit()`: general category Nd. Its blocks in the Basic
      Multilingual Plane are listed by their digit zero. Kotlin iterates a
      string by UTF-16 code unit, so a character outside that plane reaches
      the test as two surrogates, neither of which is a digit. */
  function IsDigit(c: char): (r: bool)
    ensures '0' <= c <= '9' ==> r
    ensures r ==> c as int < 0x1_0000
  {
    var n := c as int;
    || DigitBlock(n, 0x0030) || DigitBlock(n, 0x0660) || DigitBlock(n, 0x06F0) || DigitBlock(n, 0x07C0) || DigitBlock(n, 0x0966)
    || DigitBlock(n, 0x09E6) || DigitBlock(n, 0x0A66) || DigitBlock(n, 0x0AE6) || DigitBlock(n, 0x0B66) || DigitBlock(n, 0x0BE6)
    || DigitBlock(n, 0x0C66) || DigitBlock(n, 0x0CE6) || DigitBlock(n, 0x0D66) || DigitBlock(n, 0x0DE6) || DigitBlock(n, 0x0E50)
    || DigitBlock(n, 0x0ED0) || DigitBlock(n, 0x0F20) || DigitBlock(n, 0x1040) || DigitBlock(n, 0x1090) || DigitBlock(n, 0x17E0)
    || DigitBlock(n, 0x1810) || DigitBlock(n, 0x1946) || DigitBlock(n, 0x19D0) || DigitBlock(n, 0x1A80) || DigitBlock(n, 0x1A90)
    || DigitBlock(n, 0x1B50) || DigitBlock(n, 0x1BB0) || DigitBlock(n, 0x1C40) || DigitBlock(n, 0x1C50) || DigitBlock(n, 0xA620)
    || DigitBlock(n, 0xA8D0) || DigitBlock(n, 0xA900) || DigitBlock(n, 0xA9D0) || DigitBlock(n, 0xA9F0) || DigitBlock(n, 0xAA50)
    || DigitBlock(n, 0xABF0) || DigitBlock(n, 0xFF10)
  }

  /** `s.any { it.isDigit() }`: some position holds a digit. */
  function ContainsDigit(s: string): (r: bool)
    ensures r <==> exists i :: 0 <= i < |s| && IsDigit(s[i])
    decreases |s|
  {
    if s == [] then false
    else
      var resto := ContainsDigit(s[1..]);
      assert forall j :: 0 <= j < |s| - 1 ==> s[1..][j] == s[j + 1];
      IsDigit(s[0]) || resto
  }

  /** `isValidNombre`: valid exactly when no character is a digit. */
  function IsValidNombre(nombre: string): (r: bool)
    ensures r <==> forall i :: 0 <= i < |nombre| ==> !IsDigit(nombre[i])
  {
    !ContainsDigit(nombre)
  }

  /** `isValidApellido`: the same test as for names. */
  function IsValidApellido(apellido: string): (r: bool)
    ensures r <==> forall i :: 0 <= i < |apellido| ==> !IsDigit(apellido[i])
    ensures r == IsValidNombre(apellido)
  {
    !ContainsDigit(apellido)
  }

  /** `^[0-9]{7,8}-[0-9kK]$` */
  const RUT_COMPACTO: seq<Atom> := [Rep(AsciiDigit, 7, 8), Lit('-'), Rep(RutCheck, 1, 1)]

  /** `^[0-9]{1,2}\.[0-9]{3}\.[0-9]{3}-[0-9kK]$` */
  const RUT_CON_PUNTOS: seq<Atom> :=
    [Rep(AsciiDigit, 1, 2), Lit('.'), Rep(AsciiDigit, 3, 3), Lit('.'), Rep(AsciiDigit, 3, 3), Lit('-'), Rep(RutCheck, 1, 1)]

  /** `isValidRut`: valid exactly when the RUT has one of the two shapes. */
  function IsValidRut(rut: string): (r: bool)
    ensures r <==> FormaCompacta(rut) || FormaConPuntos(rut)
  {
    RutCompacto(rut);
    RutConPuntos(rut);
    Matches(RUT_COMPACTO, rut) || Matches(RUT_CON_PUNTOS, rut)
  }

  /** `^[0-9]{9}$` */
  const TELEFONO: seq<Atom> := [Rep(AsciiDigit, 9, 9)]

  /** `isValidTelefono`: valid exactly when the phone is nine ASCII digits. */
  function IsValidTelefono(telefono: string): (r: bool)
    ensures r <==> |telefono| == 9 && forall i :: 0 <= i < |telefono| ==> '0' <= telefono[i] <= '9'
  {
    MatchesRepLast(AsciiDigit, 9, 9, telefono);
    Matches(TELEFONO, telefono)
  }

  /** `isValidContrasena`, `^(?=.*[a-z])(?=.*[A-Z])(?=.*[@$!%*?&._-]).{8,}$`:
      at least 8 characters, no line terminator, and a lower-case letter, an
      upper-case letter and one of `@$!%*?&._-` somewhere. No digit is
      required. */
  function IsValidContrasena(contrasena: string): (r: bool)
    ensures r <==>
      && |contrasena| >= 8
      && AllIn(contrasena, NotLineTerminator)
      && (exists i :: 0 <= i < |contrasena| && InClass(contrasena[i], AsciiLower))
      && (exists i :: 0 <= i < |contrasena| && InClass(contrasena[i], AsciiUpper))
      && (exists i :: 0 <= i < |contrasena| && InClass(contrasena[i], PasswordSpecial))
  {
    MatchesRepMinLast(NotLineTerminator, 8, contrasena);
    LookaheadFinds(AsciiLower, contrasena);
    LookaheadFinds(AsciiUpper, contrasena);
    LookaheadFinds(PasswordSpecial, contrasena);
    ClassOnPrefixes(contrasena, NotLineTerminator);
    && MatchesPrefix(Lookahead(AsciiLower), contrasena)
    && MatchesPrefix(Lookahead(AsciiUpper), contrasena)
    && MatchesPrefix(Lookahead(PasswordSpecial), contrasena)
    && Matches([RepMin(NotLineTerminator, 8)], contrasena)
  }

  /** `contrasenasIguales`: Kotlin's `==` on strings compares contents. */
  function ContrasenasIguales(contrasena1: string, contrasena2: string): (r: bool)
    ensures r <==> |contrasena1| == |contrasena2| && forall i :: 0 <= i < |contrasena1| ==> contrasena1[i] == contrasena2[i]
  {
    contrasena1 == contrasena2
  }

  /** The ASCII digits are digits, and so are the other scripts' digits,
      e.g. the Arabic-Indic and the fullwidth ones. */
  lemma DigitosReconocidos()
    ensures forall c: char :: '0' <= c <= '9' ==> IsDigit(c)
    ensures IsDigit('\U{0663}') && IsDigit('\U{FF15}')
    ensures !IsDigit('a') && !IsDigit('-')
  {
  }

  /** `-[0-9kK]` at position `i`. */
  lemma GuionYVerificador(s: string, i: nat, j: nat)
    requires i <= j <= |s|
    ensures MatchesRange([Lit('-'), Rep(RutCheck, 1, 1)], s, i, j) <==>
      j == i + 2 && s[i] == '-' && InClass(s[i + 1], RutCheck)
  {
    RangeLit('-', [Rep(RutCheck, 1, 1)], s, i, j);
    if i < j {
      RangeRepLast(RutCheck, 1, 1, s, i + 1, j);
    }
  }

  /** The shape of a RUT without dots: 7 or 8 ASCII digits, a dash and a
      check character. */
  ghost predicate FormaCompacta(s: string)
  {
    && (|s| == 9 || |s| == 10)
    && ClassOn(s, 0, |s| - 2, AsciiDigit)
    && s[|s| - 2] == '-'
    && InClass(s[|s| - 1], RutCheck)
  }

  /** The shape of a RUT with dots: 1 or 2 digits, a dot, 3 digits, a dot,
      3 digits, a dash and a check character. */
  ghost predicate FormaConPuntos(s: string)
  {
    && (|s| == 11 || |s| == 12)
    && var d := |s| - 10;
    && ClassOn(s, 0, d, AsciiDigit)
    && s[d] == '.'
    && ClassOn(s, d + 1, d + 4, AsciiDigit)
    && s[d + 4] == '.'
    && ClassOn(s, d + 5, d + 8, AsciiDigit)
    && s[d + 8] == '-'
    && InClass(s[d + 9], RutCheck)
  }

  lemma RutCompacto(s: string)
    ensures Matches(RUT_COMPACTO, s) <==> FormaCompacta(s)
  {
    var tail := [Lit('-'), Rep(RutCheck, 1, 1)];
    assert RUT_COMPACTO == [Rep(AsciiDigit, 7, 8)] + tail;
    RangeRep(AsciiDigit, 7, 8, tail, s, 0, |s|);
    if Matches(RUT_COMPACTO, s) {
      var m :| 7 <= m <= 8 && m <= |s| && ClassOn(s, 0, m, AsciiDigit) && MatchesRange(tail, s, m, |s|);
      GuionYVerificador(s, m, |s|);
    }
    if FormaCompacta(s) {
      GuionYVerificador(s, |s| - 2, |s|);
    }
  }

  /** Everything after the leading 1 or 2 digits of a dotted RUT. */
  const RUT_PUNTOS_RESTO: seq<Atom> :=
    [Lit('.'), Rep(AsciiDigit, 3, 3), Lit('.'), Rep(AsciiDigit, 3, 3), Lit('-'), Rep(RutCheck, 1, 1)]

  /** `[0-9]{3}-[0-9kK]` at position `i`. */
  lemma TresDigitosYFinal(s: string, i: nat, j: nat)
    requires i <= j <= |s|
    ensures MatchesRange([Rep(AsciiDigit, 3, 3), Lit('-'), Rep(RutCheck, 1, 1)], s, i, j) <==>
      j == i + 5 && ClassOn(s, i, i + 3, AsciiDigit) && s[i + 3] == '-' && InClass(s[i + 4], RutCheck)
  {
    var rest := [Lit('-'), Rep(RutCheck, 1, 1)];
    assert [Rep(AsciiDigit, 3, 3), Lit('-'), Rep(RutCheck, 1, 1)] == [Rep(AsciiDigit, 3, 3)] + rest;
    RangeRepFixed(AsciiDigit, 3, rest, s, i, j);
    if i + 3 <= j {
      GuionYVerificador(s, i + 3, j);
    }
  }

  /** `\.[0-9]{3}-[0-9kK]` at position `i`. */
  lemma PuntoTresDigitosYFinal(s: string, i: nat, j: nat)
    requires i <= j <= |s|
    ensures MatchesRange([Lit('.'), Rep(AsciiDigit, 3, 3), Lit('-'), Rep(RutCheck, 1, 1)], s, i, j) <==>
      j == i + 6 && s[i] == '.' && ClassOn(s, i + 1, i + 4, AsciiDigit) && s[i + 4] == '-' && InClass(s[i + 5], RutCheck)
  {
    var rest := [Rep(AsciiDigit, 3, 3), Lit('-'), Rep(RutCheck, 1, 1)];
    assert [Lit('.'), Rep(AsciiDigit, 3, 3), Lit('-'), Rep(RutCheck, 1, 1)] == [Lit('.')] + rest;
    RangeLit('.', rest, s, i, j);
    if i < j {
      TresDigitosYFinal(s, i + 1, j);
    }
  }

  /** `[0-9]{3}\.[0-9]{3}-[0-9kK]` at position `i`. */
  lemma DosGruposYFinal(s: string, i: nat, j: nat)
    requires i <= j <= |s|
    ensures MatchesRange([Rep(AsciiDigit, 3, 3), Lit('.'), Rep(AsciiDigit, 3, 3), Lit('-'), Rep(RutCheck, 1, 1)], s, i, j) <==>
      && j == i + 9 && ClassOn(s, i, i + 3, AsciiDigit) && s[i + 3] == '.'
      && ClassOn(s, i + 4, i + 7, AsciiDigit) && s[i + 7] == '-' && InClass(s[i + 8], RutCheck)
  {
    var rest := [Lit('.'), Rep(AsciiDigit, 3, 3), Lit('-'), Rep(RutCheck, 1, 1)];
    assert [Rep(AsciiDigit, 3, 3), Lit('.'), Rep(AsciiDigit, 3, 3), Lit('-'), Rep(RutCheck, 1, 1)]
      == [Rep(AsciiDigit, 3, 3)] + rest;
    RangeRepFixed(AsciiDigit, 3, rest, s, i, j);
    if i + 3 <= j {
      PuntoTresDigitosYFinal(s, i + 3, j);
    }
  }

  /** `\.[0-9]{3}\.[0-9]{3}-[0-9kK]` at position `i`. */
  lemma RutPuntosResto(s: string, i: nat, j: nat)
    requires i <= j <= |s|
    ensures MatchesRange(RUT_PUNTOS_RESTO, s, i, j) <==>
      && j == i + 10 && s[i] == '.' && ClassOn(s, i + 1, i + 4, AsciiDigit) && s[i + 4] == '.'
      && ClassOn(s, i + 5, i + 8, AsciiDigit) && s[i + 8] == '-' && InClass(s[i + 9], RutCheck)
  {
    var rest := [Rep(AsciiDigit, 3, 3), Lit('.'), Rep(AsciiDigit, 3, 3), Lit('-'), Rep(RutCheck, 1, 1)];
    assert RUT_PUNTOS_RESTO == [Lit('.')] + rest;
    RangeLit('.', rest, s, i, j);
    if i < j {
      DosGruposYFinal(s, i + 1, j);
    }
  }

  lemma RutConPuntos(s: string)
    ensures Matches(RUT_CON_PUNTOS, s) <==> FormaConPuntos(s)
  {
    assert RUT_CON_PUNTOS == [Rep(AsciiDigit, 1, 2)] + RUT_PUNTOS_RESTO;
    RangeRep(AsciiDigit, 1, 2, RUT_PUNTOS_RESTO, s, 0, |s|);
    if Matches(RUT_CON_PUNTOS, s) {
      var m :| 1 <= m <= 2 && m <= |s| && ClassOn(s, 0, m, AsciiDigit) && MatchesRange(RUT_PUNTOS_RESTO, s, m, |s|);
      RutPuntosResto(s, m, |s|);
    }
    if FormaConPuntos(s) {
      RutPuntosResto(s, |s| - 10, |s|);
    }
  }

  /** Every valid RUT is 9 to 12 characters long and ends in a digit, `k` or
      `K`. */
  lemma RutLongitudYFinal(s: string)
    requires IsValidRut(s)
    ensures 9 <= |s| <= 12
    ensures '0' <= s[|s| - 1] <= '9' || s[|s| - 1] == 'k' || s[|s| - 1] == 'K'
  {
  }

  /** A valid phone number is never a valid name: it is made of digits. */
  lemma TelefonoNoEsNombre(s: string)
    requires IsValidTelefono(s)
    ensures !IsValidNombre(s)
  {
    assert IsDigit(s[0]);
  }

  /** A character below the Arabic-Indic digits is a digit only if it is one
      of `0`-`9`. */
  lemma NoEsDigitoBajo(c: char)
    requires c < '\U{0660}' && !('0' <= c <= '9')
    ensures !IsDigit(c)
  {
  }

  lemma EjemploContrasenaValida()
    ensures IsValidContrasena("Abcdefg.")
  {
    var s := "Abcdefg.";
    assert InClass(s[1], AsciiLower) && InClass(s[0], AsciiUpper) && InClass(s[7], PasswordSpecial);
  }

  lemma EjemploSinDigito()
    ensures !ContainsDigit("Abcdefg.")
  {
    var s := "Abcdefg.";
    forall i | 0 <= i < |s| ensures !IsDigit(s[i]) {
      NoEsDigitoBajo(s[i]);
    }
  }

  /** A password without any digit passes. */
  lemma ContrasenaSinDigito()
    ensures IsValidContrasena("Abcdefg.")
    ensures !ContainsDigit("Abcdefg.")
  {
    EjemploContrasenaValida();
    EjemploSinDigito();
  }

  /** `contrasenasIguales` is string equality: reflexive and symmetric. */
  lemma ContrasenasIgualesSpec(a: string, b: string)
    ensures ContrasenasIguales(a, a)
    ensures ContrasenasIguales(a, b) == ContrasenasIguales(b, a)
    ensures ContrasenasIguales(a, b) ==> a == b
  {
  }
}
