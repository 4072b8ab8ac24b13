/**
 * Field validators and formatters of the inventory system (utils/validators.py).
 *
 * Every validator returns a verdict: the source's `(bool, message)` pair.
 * Texts are `seq<char>`; a "digit" is an ASCII decimal digit.
 */
module Validadores {

  /** The (ok, message) pair returned by every validator. */
  datatype Veredito = Valido | Invalido(mensagem: string)

  // ---------------------------------------------------------------------------
  // Characters
  // ---------------------------------------------------------------------------

  predicate EhDigito(c: char) {
    '0' <= c <= '9'
  }

  predicate SoTemDigitos(s: string) {
    forall i :: 0 <= i < |s| ==> EhDigito(s[i])
  }

  /**
   * Numeric value of a digit, as Python's int() of a one-digit string. The
   * validators only apply it to digits; other characters map to 0.
   */
  function Valor(c: char): (v: nat)
    ensures v <= 9
  {
    if EhDigito(c) then c as int - '0' as int else 0
  }

  /** Characters that Python's str.strip() removes (str.isspace()). */
  predicate EhEspaco(c: char) {
    c == ' ' || '\t' <= c <= '\r' || '\U{1C}' <= c <= '\U{1F}'
    || c == '\U{85}' || c == '\U{A0}' || c == '\U{1680}'
    || '\U{2000}' <= c <= '\U{200A}' || c == '\U{2028}' || c == '\U{2029}'
    || c == '\U{202F}' || c == '\U{205F}' || c == '\U{3000}'
  }

  // ---------------------------------------------------------------------------
  // re.sub(r'\D', '', s) and str.strip()
  // ---------------------------------------------------------------------------

  /** The digits of `s`, in order: every non-digit character removed. */
  function SoDigitos(s: string): (r: string)
    ensures SoTemDigitos(r)
    ensures |r| <= |s|
  {
    if s == [] then []
    else (if EhDigito(s[0]) then [s[0]] else []) + SoDigitos(s[1..])
  }

  lemma {:induction false} SoDigitosConcat(a: string, b: string)
    ensures SoDigitos(a + b) == SoDigitos(a) + SoDigitos(b)
  {
    if a == [] {
      assert a + b == b;
    } else {
      assert (a + b)[0] == a[0];
      assert (a + b)[1..] == a[1..] + b;
      SoDigitosConcat(a[1..], b);
    }
  }

  /** A text made only of digits is its own digit sequence. */
  lemma {:induction false} SoDigitosDeDigitos(s: string)
    requires SoTemDigitos(s)
    ensures SoDigitos(s) == s
  {
    if s != [] {
      SoDigitosDeDigitos(s[1..]);
    }
  }

  /** A text with no digit has an empty digit sequence. */
  lemma {:induction false} SoDigitosSemDigitos(s: string)
    requires forall i :: 0 <= i < |s| ==> !EhDigito(s[i])
    ensures SoDigitos(s) == []
  {
    if s != [] {
      SoDigitosSemDigitos(s[1..]);
    }
  }

  /** Number of leading characters of `s` that strip() removes. */
  function InicioUtil(s: string): (i: nat)
    ensures i <= |s|
    ensures forall k :: 0 <= k < i ==> EhEspaco(s[k])
    ensures i < |s| ==> !EhEspaco(s[i])
  {
    if s == [] || !EhEspaco(s[0]) then 0 else 1 + InicioUtil(s[1..])
  }

  /** Length of `s` once strip() has removed its trailing spaces. */
  function FimUtil(s: string): (j: nat)
    ensures j <= |s|
    ensures forall k :: j <= k < |s| ==> EhEspaco(s[k])
    ensures 0 < j ==> !EhEspaco(s[j - 1])
  {
    if s == [] || !EhEspaco(s[|s| - 1]) then |s| else FimUtil(s[..|s| - 1])
  }

  /** Python's str.strip() with no argument. */
  function Strip(s: string): (r: string)
  {
    var i := InicioUtil(s);
    s[i..][..FimUtil(s[i..])]
  }

  /**
   * strip() removes exactly a run of spaces at each end: the result is a slice
   * of the input whose ends are not spaces, and everything cut off is a space.
   */
  lemma StripCorta(s: string)
    ensures var r := Strip(s);
      exists i, j :: 0 <= i <= j <= |s| && r == s[i..j]
        && (forall k :: 0 <= k < i ==> EhEspaco(s[k]))
        && (forall k :: j <= k < |s| ==> EhEspaco(s[k]))
    ensures var r := Strip(s);
      r == [] || (!EhEspaco(r[0]) && !EhEspaco(r[|r| - 1]))
  {
    var i := InicioUtil(s);
    var t := s[i..];
    var j := FimUtil(t);
    assert Strip(s) == s[i..i + j];
    forall k | i + j <= k < |s| ensures EhEspaco(s[k]) {
      assert s[k] == t[k - i];
    }
    if j > 0 {
      assert Strip(s)[0] == t[0];
    }
  }

  /** A text that is empty or made only of spaces strips to the empty text. */
  lemma {:induction false} StripDeEspacos(s: string)
    requires forall k :: 0 <= k < |s| ==> EhEspaco(s[k])
    ensures Strip(s) == []
  {
    if s != [] {
      StripDeEspacos(s[1..]);
      assert InicioUtil(s) == |s|;
    }
  }

  /** Stripping twice strips nothing more. */
  lemma StripIdempotente(s: string)
    ensures Strip(Strip(s)) == Strip(s)
  {
    var r := Strip(s);
    StripCorta(s);
    if r != [] {
      assert InicioUtil(r) == 0;
      assert r[0..] == r;
      assert FimUtil(r) == |r|;
    }
  }

  // ---------------------------------------------------------------------------
  // Tax-ID check digits (mod 11)
  // ---------------------------------------------------------------------------

  /** sum(int(ds[i]) * pesos[i] for i in range(len(ds))) */
  function SomaPonderada(ds: string, pesos: seq<int>): int
    requires |ds| == |pesos|
  {
    if ds == [] then 0 else Valor(ds[0]) * pesos[0] + SomaPonderada(ds[1..], pesos[1..])
  }

  /** Both validators' calcular_digito: remainder below 2 gives 0, else 11 - remainder. */
  function DigitoVerificador(ds: string, pesos: seq<int>): (d: nat)
    requires |ds| == |pesos|
    ensures d <= 9
    ensures d == 0 <==> SomaPonderada(ds, pesos) % 11 < 2
  {
    var resto := SomaPonderada(ds, pesos) % 11;
    if resto < 2 then 0 else 11 - resto
  }

  /** The digit character whose value is `d`. */
  function Caractere(d: nat): (c: char)
    requires d <= 9
    ensures EhDigito(c) && Valor(c) == d
  {
    ('0' as int + d) as char
  }

  /** [inicio, inicio - 1, ..., inicio - n + 1]: the CPF weights. */
  function PesosDecrescentes(inicio: int, n: nat): (r: seq<int>)
    decreases n
    ensures |r| == n
    ensures forall i :: 0 <= i < n ==> r[i] == inicio - i
  {
    if n == 0 then [] else [inicio] + PesosDecrescentes(inicio - 1, n - 1)
  }

  const PesosCnpjPrimeiro: seq<int> := [5, 4, 3, 2, 9, 8, 7, 6, 5, 4, 3, 2]
  const PesosCnpjSegundo: seq<int> := [6, 5, 4, 3, 2, 9, 8, 7, 6, 5, 4, 3, 2]

  /** cpf == cpf[0] * len(cpf) */
  predicate TodosIguais(s: string) {
    forall i :: 0 <= i < |s| ==> s[i] == s[0]
  }

  // ---------------------------------------------------------------------------
  // CPF
  // ---------------------------------------------------------------------------

  function ValidarCpf(cpf: string): (r: Veredito)
    ensures cpf == [] ==> r == Valido
    ensures cpf != [] && |SoDigitos(cpf)| != 11 ==> r == Invalido("CPF deve ter 11 dígitos")
    ensures r.Invalido? ==> r.mensagem == "CPF deve ter 11 dígitos" || r.mensagem == "CPF inválido"
  {
    if cpf == [] then Valido
    else
      var d := SoDigitos(cpf);
      if |d| != 11 then Invalido("CPF deve ter 11 dígitos")
      else if TodosIguais(d) then Invalido("CPF inválido")
      else if Valor(d[9]) != DigitoVerificador(d[..9], PesosDecrescentes(10, 9)) then Invalido("CPF inválido")
      else if Valor(d[10]) != DigitoVerificador(d[..10], PesosDecrescentes(11, 10)) then Invalido("CPF inválido")
      else Valido
  }

  /** A nine-digit CPF base followed by the two check digits the algorithm computes for it. */
  function CompletarCpf(base: string): (r: string)
    requires |base| == 9 && SoTemDigitos(base)
    ensures |r| == 11 && SoTemDigitos(r) && r[..9] == base
  {
    var d1 := Caractere(DigitoVerificador(base, PesosDecrescentes(10, 9)));
    var d2 := Caractere(DigitoVerificador(base + [d1], PesosDecrescentes(11, 10)));
    base + [d1, d2]
  }

  /** Eleven digits are the completion of their first nine iff both check digits match. */
  lemma DigitosCpfConferem(d: string)
    requires |d| == 11 && SoTemDigitos(d)
    ensures d == CompletarCpf(d[..9]) <==>
      && Valor(d[9]) == DigitoVerificador(d[..9], PesosDecrescentes(10, 9))
      && Valor(d[10]) == DigitoVerificador(d[..10], PesosDecrescentes(11, 10))
  {
    assert d[..10] == d[..9] + [d[9]];
    assert d == d[..9] + [d[9], d[10]];
  }

  /**
   * A non-empty text is a valid CPF exactly when its digits are eleven, are not
   * all the same, and are the completion of their first nine.
   */
  lemma CpfValidoSeCompleto(cpf: string)
    requires cpf != []
    ensures var d := SoDigitos(cpf);
      ValidarCpf(cpf) == Valido <==>
        |d| == 11 && !TodosIguais(d) && d == CompletarCpf(d[..9])
  {
    var d := SoDigitos(cpf);
    if |d| == 11 {
      DigitosCpfConferem(d);
    }
  }

  /** Completing any base whose digits are not all the same gives a valid CPF. */
  lemma CompletarCpfValido(base: string)
    requires |base| == 9 && SoTemDigitos(base) && !TodosIguais(base)
    ensures ValidarCpf(CompletarCpf(base)) == Valido
  {
    var c := CompletarCpf(base);
    SoDigitosDeDigitos(c);
    assert c[..9] == base;
    CpfValidoSeCompleto(c);
  }

  // ---------------------------------------------------------------------------
  // CNPJ
  // ---------------------------------------------------------------------------

  function ValidarCnpj(cnpj: string): (r: Veredito)
    ensures cnpj == [] ==> r == Valido
    ensures cnpj != [] && |SoDigitos(cnpj)| != 14 ==> r == Invalido("CNPJ deve ter 14 dígitos")
    ensures r.Invalido? ==> r.mensagem == "CNPJ deve ter 14 dígitos" || r.mensagem == "CNPJ inválido"
  {
    if cnpj == [] then Valido
    else
      var d := SoDigitos(cnpj);
      if |d| != 14 then Invalido("CNPJ deve ter 14 dígitos")
      else if TodosIguais(d) then Invalido("CNPJ inválido")
      else if Valor(d[12]) != DigitoVerificador(d[..12], PesosCnpjPrimeiro) then Invalido("CNPJ inválido")
      else if Valor(d[13]) != DigitoVerificador(d[..13], PesosCnpjSegundo) then Invalido("CNPJ inválido")
      else Valido
  }

  /** A twelve-digit CNPJ base followed by its two computed check digits. */
  function CompletarCnpj(base: string): (r: string)
    requires |base| == 12 && SoTemDigitos(base)
    ensures |r| == 14 && SoTemDigitos(r) && r[..12] == base
  {
    var d1 := Caractere(DigitoVerificador(base, PesosCnpjPrimeiro));
    var d2 := Caractere(DigitoVerificador(base + [d1], PesosCnpjSegundo));
    base + [d1, d2]
  }

  /** Fourteen digits are the completion of their first twelve iff both check digits match. */
  lemma DigitosCnpjConferem(d: string)
    requires |d| == 14 && SoTemDigitos(d)
    ensures d == CompletarCnpj(d[..12]) <==>
      && Valor(d[12]) == DigitoVerificador(d[..12], PesosCnpjPrimeiro)
      && Valor(d[13]) == DigitoVerificador(d[..13], PesosCnpjSegundo)
  {
    assert d[..13] == d[..12] + [d[12]];
    assert d == d[..12] + [d[12], d[13]];
  }

  lemma CnpjValidoSeCompleto(cnpj: string)
    requires cnpj != []
    ensures var d := SoDigitos(cnpj);
      ValidarCnpj(cnpj) == Valido <==>
        |d| == 14 && !TodosIguais(d) && d == CompletarCnpj(d[..12])
  {
    var d := SoDigitos(cnpj);
    if |d| == 14 {
      DigitosCnpjConferem(d);
    }
  }

  lemma CompletarCnpjValido(base: string)
    requires |base| == 12 && SoTemDigitos(base) && !TodosIguais(base)
    ensures ValidarCnpj(CompletarCnpj(base)) == Valido
  {
    var c := CompletarCnpj(base);
    SoDigitosDeDigitos(c);
    assert c[..12] == base;
    CnpjValidoSeCompleto(c);
  }

  // ---------------------------------------------------------------------------
  // Document (CPF or CNPJ by digit count)
  // ---------------------------------------------------------------------------

  /** The length messages of the CPF and CNPJ checks can never reach the caller: the digit count picks the check. */
  function ValidarDocumento(documento: string): (r: Veredito)
    ensures r.Invalido? ==>
      || r.mensagem == "CPF inválido"
      || r.mensagem == "CNPJ inválido"
      || r.mensagem == "Documento deve ser CPF (11 dígitos) ou CNPJ (14 dígitos)"
  {
    if documento == [] then Valido
    else
      var d := SoDigitos(documento);
      if |d| == 11 then ValidarCpf(documento)
      else if |d| == 14 then ValidarCnpj(documento)
      else Invalido("Documento deve ser CPF (11 dígitos) ou CNPJ (14 dígitos)")
  }

  /** The documents are optional, the phone is not. */
  lemma VaziosOpcionais()
    ensures ValidarCpf("") == Valido && ValidarCnpj("") == Valido && ValidarDocumento("") == Valido
    ensures ValidarTelefone("") == Invalido("Telefone é obrigatório")
  {
  }

  /** A document is accepted exactly when it is accepted as a CPF or as a CNPJ. */
  lemma DocumentoCpfOuCnpj(documento: string)
    ensures ValidarDocumento(documento) == Valido <==>
      ValidarCpf(documento) == Valido || ValidarCnpj(documento) == Valido
  {
  }

  // ---------------------------------------------------------------------------
  // Phone and serial number
  // ---------------------------------------------------------------------------

  function ValidarTelefone(telefone: string): (r: Veredito)
    ensures r == Valido ==> |SoDigitos(telefone)| == 10 || |SoDigitos(telefone)| == 11
    ensures r.Invalido? ==>
      || r.mensagem == "Telefone é obrigatório"
      || r.mensagem == "Telefone deve ter 10 ou 11 dígitos"
      || r.mensagem == "DDD inválido"
  {
    if telefone == [] then Invalido("Telefone é obrigatório")
    else
      var d := SoDigitos(telefone);
      if |d| != 10 && |d| != 11 then Invalido("Telefone deve ter 10 ou 11 dígitos")
      else
        var ddd := Valor(d[0]) * 10 + Valor(d[1]);
        if ddd < 11 || ddd > 99 then Invalido("DDD inválido") else Valido
  }

  /**
   * A phone is accepted exactly when it has 10 or 11 digits and its area code
   * (first two digits) neither starts with 0 nor is "10".
   */
  lemma TelefoneValidoSe(telefone: string)
    ensures var d := SoDigitos(telefone);
      ValidarTelefone(telefone) == Valido <==>
        (|d| == 10 || |d| == 11) && d[0] != '0' && d[..2] != "10"
  {
    var d := SoDigitos(telefone);
    if |d| == 10 || |d| == 11 {
      assert telefone != [];
      if d[..2] == "10" {
        assert d[0] == '1' && d[1] == '0';
      } else if d[0] == '1' {
        assert d[1] != '0' by { assert d[..2] == [d[0], d[1]]; }
      }
    }
  }

  function ValidarNumeroSerie(numeroSerie: string): (r: Veredito)
    ensures r.Invalido? ==> r.mensagem == "Número de série é obrigatório" || r.mensagem == "Número de série muito curto"
    ensures |Strip(numeroSerie)| >= 3 ==> r == Valido
  {
    if numeroSerie == [] || Strip(numeroSerie) == [] then Invalido("Número de série é obrigatório")
    else if |Strip(numeroSerie)| < 3 then Invalido("Número de série muito curto")
    else Valido
  }

  /** A serial number is accepted exactly when at least three characters survive strip(). */
  lemma NumeroSerieValidoSe(numeroSerie: string)
    ensures ValidarNumeroSerie(numeroSerie) == Valido <==> |Strip(numeroSerie)| >= 3
  {
    if numeroSerie == [] {
      StripDeEspacos(numeroSerie);
    }
  }

  // ---------------------------------------------------------------------------
  // Formatters
  // ---------------------------------------------------------------------------

  /**
   * `s` has the layout of `mascara`: same length, a digit where the mask has
   * '#', and the mask's own character everywhere else.
   */
  predicate Casa(s: string, mascara: string) {
    |s| == |mascara|
    && (s == [] || (
      (if mascara[0] == '#' then EhDigito(s[0]) else s[0] == mascara[0])
      && Casa(s[1..], mascara[1..])))
  }

  lemma {:induction false} CasaConcat(a: string, ma: string, b: string, mb: string)
    requires Casa(a, ma) && Casa(b, mb)
    ensures Casa(a + b, ma + mb)
  {
    if a == [] {
      assert a + b == b && ma + mb == mb;
    } else {
      CasaConcat(a[1..], ma[1..], b, mb);
      assert (a + b)[1..] == a[1..] + b && (ma + mb)[1..] == ma[1..] + mb;
    }
  }

  /** Each position of a text with the layout of a mask agrees with the mask. */
  lemma {:induction false} CasaPosicao(s: string, mascara: string, i: nat)
    requires Casa(s, mascara) && i < |s|
    ensures if mascara[i] == '#' then EhDigito(s[i]) else s[i] == mascara[i]
  {
    if i > 0 {
      CasaPosicao(s[1..], mascara[1..], i - 1);
    }
  }

  /** n copies of '#'. */
  function Cerquilhas(n: nat): (r: string)
    ensures |r| == n && forall i :: 0 <= i < n ==> r[i] == '#'
  {
    if n == 0 then [] else ['#'] + Cerquilhas(n - 1)
  }

  /** formatar_cpf's f-string "XXX.XXX.XXX-XX" over eleven digits. */
  function PontuarCpf(d: string): string
    requires |d| == 11
  {
    d[..3] + "." + d[3..6] + "." + d[6..9] + "-" + d[9..11]
  }

  function FormatarCpf(cpf: string): (r: string)
    ensures |SoDigitos(cpf)| == 11 ==> |r| == |MascaraCpf|
    ensures |SoDigitos(cpf)| != 11 ==> r == cpf
  {
    var d := SoDigitos(cpf);
    if |d| == 11 then PontuarCpf(d) else cpf
  }

  /** formatar_cnpj's f-string "XX.XXX.XXX/XXXX-XX" over fourteen digits. */
  function PontuarCnpj(d: string): string
    requires |d| == 14
  {
    d[..2] + "." + d[2..5] + "." + d[5..8] + "/" + d[8..12] + "-" + d[12..14]
  }

  function FormatarCnpj(cnpj: string): (r: string)
    ensures |SoDigitos(cnpj)| == 14 ==> |r| == |MascaraCnpj|
    ensures |SoDigitos(cnpj)| != 14 ==> r == cnpj
  {
    var d := SoDigitos(cnpj);
    if |d| == 14 then PontuarCnpj(d) else cnpj
  }

  /**
   * formatar_telefone's f-strings: "(XX) XXXXX-XXXX" over eleven digits and
   * "(XX) XXXX-XXXX" over ten (the last four digits follow the dash).
   */
  function PontuarTelefone(d: string): string
    requires |d| == 10 || |d| == 11
  {
    if |d| == 11 then "(" + d[..2] + ") " + d[2..7] + "-" + d[7..11]
    else "(" + d[..2] + ") " + d[2..6] + "-" + d[6..10]
  }

  function FormatarTelefone(telefone: string): (r: string)
    ensures |SoDigitos(telefone)| == 11 ==> |r| == |MascaraCelular|
    ensures |SoDigitos(telefone)| == 10 ==> |r| == |MascaraFixo|
    ensures |SoDigitos(telefone)| != 10 && |SoDigitos(telefone)| != 11 ==> r == telefone
  {
    var d := SoDigitos(telefone);
    if |d| == 11 || |d| == 10 then PontuarTelefone(d) else telefone
  }

  /** "###.###.###-##" */
  const MascaraCpf: string := "###" + "." + "###" + "." + "###" + "-" + "##"
  /** "##.###.###/####-##" */
  const MascaraCnpj: string := "##" + "." + "###" + "." + "###" + "/" + "####" + "-" + "##"
  /** "(##) #####-####" */
  const MascaraCelular: string := "(" + "##" + ") " + "#####" + "-" + "####"
  /** "(##) ####-####" */
  const MascaraFixo: string := "(" + "##" + ") " + "####" + "-" + "####"

  /** A slice of a digit string has the layout of a run of '#'. */
  lemma FatiaDeDigitos(d: string, i: nat, j: nat)
    requires SoTemDigitos(d) && i <= j <= |d|
    ensures Casa(d[i..j], Cerquilhas(j - i)) && SoDigitos(d[i..j]) == d[i..j]
  {
    SoDigitosDeDigitos(d[i..j]);
    DigitosCasam(d[i..j]);
  }

  lemma {:induction false} DigitosCasam(s: string)
    requires SoTemDigitos(s)
    ensures Casa(s, Cerquilhas(|s|))
  {
    if s != [] {
      DigitosCasam(s[1..]);
    }
  }

  lemma {:induction false} SeparadorCasa(sep: string)
    requires forall i :: 0 <= i < |sep| ==> sep[i] != '#'
    ensures Casa(sep, sep)
  {
    if sep != [] {
      SeparadorCasa(sep[1..]);
    }
  }

  /** The first run d[..j] of digits of a formatted text, after a fixed opening `abre`. */
  lemma PrimeiroBloco(abre: string, d: string, j: nat, cerquilhas: string) returns (z: string, mz: string)
    requires SoTemDigitos(d) && j <= |d| && cerquilhas == Cerquilhas(j)
    requires forall k :: 0 <= k < |abre| ==> !EhDigito(abre[k]) && abre[k] != '#'
    ensures z == (if abre == [] then d[..j] else abre + d[..j])
    ensures mz == (if abre == [] then cerquilhas else abre + cerquilhas)
    ensures Casa(z, mz) && SoDigitos(z) == d[..j]
  {
    FatiaDeDigitos(d, 0, j);
    assert d[0..j] == d[..j];
    if abre == [] {
      z, mz := d[..j], cerquilhas;
    } else {
      z, mz := abre + d[..j], abre + cerquilhas;
      SoDigitosSemDigitos(abre);
      SeparadorCasa(abre);
      CasaConcat(abre, abre, d[..j], cerquilhas);
      SoDigitosConcat(abre, d[..j]);
    }
  }

  /**
   * One step of building a formatted text: a prefix holding the digits d[..i]
   * gets a separator and then the next run d[i..j] of digits.
   */
  lemma AnexarBloco(x: string, mx: string, sep: string, d: string, i: nat, j: nat, cerquilhas: string)
    returns (z: string, mz: string)
    requires Casa(x, mx) && SoTemDigitos(d) && i <= j <= |d| && SoDigitos(x) == d[..i]
    requires forall k :: 0 <= k < |sep| ==> !EhDigito(sep[k]) && sep[k] != '#'
    requires cerquilhas == Cerquilhas(j - i)
    ensures z == x + sep + d[i..j] && mz == mx + sep + cerquilhas
    ensures Casa(z, mz) && SoDigitos(z) == d[..j]
  {
    z, mz := x + sep + d[i..j], mx + sep + cerquilhas;
    SoDigitosSemDigitos(sep);
    SeparadorCasa(sep);
    FatiaDeDigitos(d, i, j);
    CasaConcat(x, mx, sep, sep);
    CasaConcat(x + sep, mx + sep, d[i..j], cerquilhas);
    SoDigitosConcat(x, sep);
    SoDigitosConcat(x + sep, d[i..j]);
    assert d[..i] + [] + d[i..j] == d[..j];
  }

  /**
   * formatar_cpf re-inserts the separators "XXX.XXX.XXX-XX" when there are
   * exactly 11 digits, returns its input otherwise, and never changes the digits.
   */
  lemma FormatarCpfCorreto(cpf: string)
    ensures var d := SoDigitos(cpf);
      && SoDigitos(FormatarCpf(cpf)) == d
      && (|d| == 11 ==> Casa(FormatarCpf(cpf), MascaraCpf))
      && (|d| != 11 ==> FormatarCpf(cpf) == cpf)
  {
    var d := SoDigitos(cpf);
    if |d| == 11 {
      PontuarCpfCorreto(d);
    }
  }

  lemma PontuarCpfCorreto(d: string)
    requires |d| == 11 && SoTemDigitos(d)
    ensures SoDigitos(PontuarCpf(d)) == d && Casa(PontuarCpf(d), MascaraCpf)
  {
    assert Cerquilhas(3) == "###" && Cerquilhas(2) == "##";
    assert d[..11] == d;
    var s, m := PrimeiroBloco([], d, 3, "###");
    s, m := AnexarBloco(s, m, ".", d, 3, 6, "###");
    s, m := AnexarBloco(s, m, ".", d, 6, 9, "###");
    s, m := AnexarBloco(s, m, "-", d, 9, 11, "##");
    assert s == PontuarCpf(d);
    assert m == MascaraCpf;
  }

  /**
   * formatar_cnpj re-inserts "XX.XXX.XXX/XXXX-XX" when there are exactly 14
   * digits, returns its input otherwise, and never changes the digits.
   */
  lemma FormatarCnpjCorreto(cnpj: string)
    ensures var d := SoDigitos(cnpj);
      && SoDigitos(FormatarCnpj(cnpj)) == d
      && (|d| == 14 ==> Casa(FormatarCnpj(cnpj), MascaraCnpj))
      && (|d| != 14 ==> FormatarCnpj(cnpj) == cnpj)
  {
    var d := SoDigitos(cnpj);
    if |d| == 14 {
      PontuarCnpjCorreto(d);
    }
  }

  lemma PontuarCnpjCorreto(d: string)
    requires |d| == 14 && SoTemDigitos(d)
    ensures SoDigitos(PontuarCnpj(d)) == d && Casa(PontuarCnpj(d), MascaraCnpj)
  {
    assert Cerquilhas(2) == "##" && Cerquilhas(3) == "###" && Cerquilhas(4) == "####";
    assert d[..14] == d;
    var s, m := PrimeiroBloco([], d, 2, "##");
    s, m := AnexarBloco(s, m, ".", d, 2, 5, "###");
    s, m := AnexarBloco(s, m, ".", d, 5, 8, "###");
    s, m := AnexarBloco(s, m, "/", d, 8, 12, "####");
    s, m := AnexarBloco(s, m, "-", d, 12, 14, "##");
    assert s == PontuarCnpj(d);
    assert m == MascaraCnpj;
  }

  /**
   * formatar_telefone gives "(XX) XXXXX-XXXX" for 11 digits, "(XX) XXXX-XXXX"
   * for 10, returns its input otherwise, and never changes the digits.
   */
  lemma FormatarTelefoneCorreto(telefone: string)
    ensures var d := SoDigitos(telefone);
      && SoDigitos(FormatarTelefone(telefone)) == d
      && (|d| == 11 ==> Casa(FormatarTelefone(telefone), MascaraCelular))
      && (|d| == 10 ==> Casa(FormatarTelefone(telefone), MascaraFixo))
      && (|d| != 10 && |d| != 11 ==> FormatarTelefone(telefone) == telefone)
  {
    var d := SoDigitos(telefone);
    if |d| == 10 || |d| == 11 {
      PontuarTelefoneCorreto(d);
    }
  }

  lemma PontuarTelefoneCorreto(d: string)
    requires (|d| == 10 || |d| == 11) && SoTemDigitos(d)
    ensures SoDigitos(PontuarTelefone(d)) == d
    ensures Casa(PontuarTelefone(d), if |d| == 11 then MascaraCelular else MascaraFixo)
  {
    assert Cerquilhas(2) == "##" && Cerquilhas(4) == "####" && Cerquilhas(5) == "#####";
    assert d[..|d|] == d;
    var s, m := PrimeiroBloco("(", d, 2, "##");
    if |d| == 11 {
      s, m := AnexarBloco(s, m, ") ", d, 2, 7, "#####");
      s, m := AnexarBloco(s, m, "-", d, 7, 11, "####");
    } else {
      s, m := AnexarBloco(s, m, ") ", d, 2, 6, "####");
      s, m := AnexarBloco(s, m, "-", d, 6, 10, "####");
    }
  }

  /** Formatting a phone twice is the same as formatting it once. */
  lemma FormatarTelefoneIdempotente(telefone: string)
    ensures FormatarTelefone(FormatarTelefone(telefone)) == FormatarTelefone(telefone)
  {
    FormatarTelefoneCorreto(telefone);
  }

  lemma FormatarCpfIdempotente(cpf: string)
    ensures FormatarCpf(FormatarCpf(cpf)) == FormatarCpf(cpf)
  {
    FormatarCpfCorreto(cpf);
  }

  lemma FormatarCnpjIdempotente(cnpj: string)
    ensures FormatarCnpj(FormatarCnpj(cnpj)) == FormatarCnpj(cnpj)
  {
    FormatarCnpjCorreto(cnpj);
  }

  /** Formatting never changes whether a phone is accepted. */
  lemma FormatarTelefonePreservaValidade(telefone: string)
    ensures ValidarTelefone(FormatarTelefone(telefone)) == ValidarTelefone(telefone)
  {
    FormatarTelefoneCorreto(telefone);
  }

  /** Formatting never changes whether a CPF is accepted. */
  lemma FormatarCpfPreservaValidade(cpf: string)
    ensures ValidarCpf(FormatarCpf(cpf)) == ValidarCpf(cpf)
  {
    FormatarCpfCorreto(cpf);
  }

  /** Formatting never changes whether a CNPJ is accepted. */
  lemma FormatarCnpjPreservaValidade(cnpj: string)
    ensures ValidarCnpj(FormatarCnpj(cnpj)) == ValidarCnpj(cnpj)
  {
    FormatarCnpjCorreto(cnpj);
  }

  // ---------------------------------------------------------------------------
  // Digits decide
  // ---------------------------------------------------------------------------

  /** Splitting the digits and the weights at the same point splits the weighted sum. */
  lemma {:induction false} SomaPonderadaConcat(a: string, p: seq<int>, b: string, q: seq<int>)
    requires |a| == |p| && |b| == |q|
    ensures SomaPonderada(a + b, p + q) == SomaPonderada(a, p) + SomaPonderada(b, q)
  {
    if a == [] {
      assert a + b == b && p + q == q;
    } else {
      assert (a + b)[1..] == a[1..] + b;
      assert (p + q)[1..] == p[1..] + q;
      SomaPonderadaConcat(a[1..], p[1..], b, q);
    }
  }

  /** A non-empty CPF's verdict depends only on its digits, not on its punctuation. */
  lemma CpfSoVeDigitos(a: string, b: string)
    requires a != [] && b != [] && SoDigitos(a) == SoDigitos(b)
    ensures ValidarCpf(a) == ValidarCpf(b)
  {
  }

  /** A non-empty CNPJ's verdict depends only on its digits, not on its punctuation. */
  lemma CnpjSoVeDigitos(a: string, b: string)
    requires a != [] && b != [] && SoDigitos(a) == SoDigitos(b)
    ensures ValidarCnpj(a) == ValidarCnpj(b)
  {
  }
}
