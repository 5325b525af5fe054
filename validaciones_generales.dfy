/**
 * core/validaciones_generales.py: the three field checks shared by the
 * supplier and client forms. Each takes the text typed and a flag that lets
 * an empty answer through (an edit that keeps the current value). The error
 * message each shows on rejection is console output and is not modelled.
 */
module ValidacionesGenerales {
  import opened Texto

  /** `validar_nombre`: any non-empty name; the empty one only when allowed. */
  function ValidarNombre(nombre: string, permitirVacio: bool): (ok: bool)
    ensures ok <==> |nombre| > 0 || permitirVacio
  {
    if nombre == "" then permitirVacio else true
  }

  /** `validar_telefono`: empty only when allowed; otherwise every character a decimal digit. */
  function ValidarTelefono(telefono: string, permitirVacio: bool): (ok: bool)
    ensures telefono == "" ==> (ok <==> permitirVacio)
    ensures telefono != "" ==> (ok <==> forall i | 0 <= i < |telefono| :: '0' <= telefono[i] <= '9')
  {
    if telefono == "" then permitirVacio else SoloDigitos(telefono)
  }

  /** Every number written in decimal is an acceptable phone, whatever the flag. */
  lemma TelefonoDeNumero(n: nat, permitirVacio: bool)
    ensures ValidarTelefono(Decimal(n), permitirVacio)
  {
  }

  /** `validar_email`: empty only when allowed; otherwise it holds an '@' and a '.', in either order. */
  function ValidarEmail(email: string, permitirVacio: bool): (ok: bool)
    ensures email == "" ==> (ok <==> permitirVacio)
    ensures email != "" ==>
              (ok <==> (exists i | 0 <= i < |email| :: email[i] == '@') && (exists j | 0 <= j < |email| :: email[j] == '.'))
  {
    if email == "" then permitirVacio else '@' in email && '.' in email
  }

  /** The email check asks for no order: a dot before the only '@' passes, and so does one after it. */
  lemma EmailSinOrden(a: string, b: string, c: string)
    ensures ValidarEmail(a + "." + b + "@" + c, false)
    ensures ValidarEmail(a + "@" + b + "." + c, false)
  {
    var s := a + "." + b + "@" + c;
    assert s[|a|] == '.' && s[|a| + 1 + |b|] == '@';
    var u := a + "@" + b + "." + c;
    assert u[|a|] == '@' && u[|a| + 1 + |b|] == '.';
  }
}
