/**
 * The string primitives the validators rely on, restricted to what the program
 * uses them for: `str.isdigit`, `int()`, `str(int)`, `in` on strings,
 * `str.strip`, and the text normalisation of core/utils.py.
 * Digits are the ASCII digits '0'..'9'.
 */
module Texto {
  import opened Opcion

  predicate EsDigito(c: char) { '0' <= c <= '9' }

  predicate SoloDigitos(s: string) { forall i | 0 <= i < |s| :: EsDigito(s[i]) }

  /** `s.isdigit()`: false on the empty string. */
  predicate EsNumero(s: string) { |s| > 0 && SoloDigitos(s) }

  function ValorDigito(c: char): (d: nat)
    requires EsDigito(c)
    ensures d < 10
  {
    (c as int) - ('0' as int)
  }

  function DigitoDe(d: nat): (c: char)
    requires d < 10
    ensures EsDigito(c) && ValorDigito(c) == d
  {
    (('0' as int) + d) as char
  }

  /** `int(s)` for a string of ASCII digits. */
  function ValorDecimal(s: string): nat
    requires SoloDigitos(s)
    decreases |s|
  {
    if s == [] then 0 else 10 * ValorDecimal(s[..|s| - 1]) + ValorDigito(s[|s| - 1])
  }

  /** `str(n)` for a non-negative integer. */
  function Decimal(n: nat): (s: string)
    ensures EsNumero(s)
    ensures n < 10 <==> |s| == 1
  {
    if n < 10 then [DigitoDe(n)] else Decimal(n / 10) + [DigitoDe(n % 10)]
  }

  /** Reading back what `str` wrote gives the number: `int(str(n)) == n`. */
  lemma {:induction false} ValorDecimalDeDecimal(n: nat)
    ensures ValorDecimal(Decimal(n)) == n
  {
    if n >= 10 {
      var s := Decimal(n);
      assert s[..|s| - 1] == Decimal(n / 10);
      ValorDecimalDeDecimal(n / 10);
    }
  }

  /** `str(i)` for any integer: a leading '-' for negative values. */
  function StrEntero(i: int): string
  {
    if i < 0 then "-" + Decimal(-i) else Decimal(i)
  }

  /**
   * What an id validator sees when the program passes it `str(i)`:
   * it is all digits exactly when `i` is not negative, and then it reads back as `i`.
   */
  lemma StrEnteroEsNumero(i: int)
    ensures EsNumero(StrEntero(i)) <==> i >= 0
    ensures i >= 0 ==> ValorDecimal(StrEntero(i)) == i
  {
    if i < 0 {
      assert StrEntero(i)[0] == '-';
    } else {
      ValorDecimalDeDecimal(i);
    }
  }

  /** `int(s)`: an optional sign followed by ASCII digits; anything else raises ValueError (None). */
  function ParseEntero(s: string): (r: Option<int>)
    ensures r.Some? ==> |s| > 0
  {
    if |s| > 0 && (s[0] == '-' || s[0] == '+') && EsNumero(s[1..]) then
      var v: int := ValorDecimal(s[1..]);
      Some(if s[0] == '-' then -v else v)
    else if EsNumero(s) then Some(ValorDecimal(s))
    else None
  }

  /** `int(str(i)) == i` for every integer. */
  lemma ParseEnteroDeStr(i: int)
    ensures ParseEntero(StrEntero(i)) == Some(i)
  {
    var s := StrEntero(i);
    if i < 0 {
      assert s[1..] == Decimal(-i);
      ValorDecimalDeDecimal(-i);
    } else {
      ValorDecimalDeDecimal(i);
      assert EsDigito(s[0]);
    }
  }

  /** `a <= b` on Python strings: lexicographic by code point, a prefix before its extensions. */
  predicate MenorOIgual(a: string, b: string)
    decreases |a|
  {
    if a == [] then true
    else if b == [] then false
    else if a[0] != b[0] then a[0] < b[0]
    else MenorOIgual(a[1..], b[1..])
  }

  /** Any two strings are comparable. */
  lemma {:induction false} MenorOIgualTotal(a: string, b: string)
    ensures MenorOIgual(a, b) || MenorOIgual(b, a)
    decreases |a|
  {
    if a != [] && b != [] && a[0] == b[0] {
      MenorOIgualTotal(a[1..], b[1..]);
    }
  }

  lemma {:induction false} MenorOIgualTransitivo(a: string, b: string, c: string)
    requires MenorOIgual(a, b) && MenorOIgual(b, c)
    ensures MenorOIgual(a, c)
    decreases |a|
  {
    if a != [] && b != [] && c != [] && a[0] == b[0] && b[0] == c[0] {
      MenorOIgualTransitivo(a[1..], b[1..], c[1..]);
    }
  }

  /** A string the user types to cancel: the prompt helper returns "c" for "c" or "C". */
  predicate EsCancelar(s: string) { s == "c" || s == "C" }

  /** `s.lower() == "s"`: the answer that asks to keep adding items. */
  predicate EsSeguir(s: string) { s == "s" || s == "S" }

  /** The characters `str.isspace` (and the regex class `\s`) accepts. */
  predicate EsEspacio(c: char)
  {
    var n := c as int;
    (9 <= n <= 13) || (28 <= n <= 32) || n == 0x85 || n == 0xA0 || n == 0x1680
    || (0x2000 <= n <= 0x200A) || n == 0x2028 || n == 0x2029 || n == 0x202F
    || n == 0x205F || n == 0x3000
  }

  /** `s.strip()`: leading and trailing whitespace removed. */
  function Recortar(s: string): (r: string)
    ensures |r| <= |s|
    ensures r != [] ==> !EsEspacio(r[0]) && !EsEspacio(r[|r| - 1])
    decreases |s|
  {
    if s == [] then []
    else if EsEspacio(s[0]) then Recortar(s[1..])
    else if EsEspacio(s[|s| - 1]) then Recortar(s[..|s| - 1])
    else s
  }

  /**
   * One character through `lower()`, NFKD and `encode("ASCII", "ignore")`,
   * written out for the Latin-1 block: ASCII letters are lowered, accented
   * letters keep their base letter, compatibility characters keep their ASCII
   * decomposition, everything else outside ASCII is dropped.
   */
  function PlegarCaracter(c: char): (r: string)
    ensures |r| <= 2
    ensures forall i | 0 <= i < |r| :: r[i] as int < 128 && !('A' <= r[i] <= 'Z')
  {
    if 'A' <= c <= 'Z' then [((c as int) + 32) as char]
    else if c as int < 128 then [c]
    else if c in "ÀÁÂÃÄÅàáâãäåª" then "a"
    else if c in "ÈÉÊËèéêë" then "e"
    else if c in "ÌÍÎÏìíîï" then "i"
    else if c in "ÒÓÔÕÖòóôõöº" then "o"
    else if c in "ÙÚÛÜùúûü" then "u"
    else if c in "Ññ" then "n"
    else if c in "Çç" then "c"
    else if c in "Ýýÿ" then "y"
    else if c == '¹' then "1"
    else if c == '²' then "2"
    else if c == '³' then "3"
    else if c == '¼' then "14"
    else if c == '½' then "12"
    else if c == '¾' then "34"
    else if c in "\U{A0}¨¯´¸" then " "
    else []
  }

  function Plegar(s: string): (r: string)
    ensures |r| <= 2 * |s|
    ensures forall i | 0 <= i < |r| :: r[i] as int < 128 && !('A' <= r[i] <= 'Z')
    decreases |s|
  {
    if s == [] then [] else PlegarCaracter(s[0]) + Plegar(s[1..])
  }

  /** `normalizar_texto`: strip, then fold case and accents. */
  function Normalizar(s: string): string
  {
    Plegar(Recortar(s))
  }
}
