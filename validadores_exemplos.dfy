/**
 * The examples at the foot of utils/validators.py, proved on the digit
 * strings themselves (check digits computed chunk by chunk).
 */
module ValidadoresExemplos {
  import opened Validadores

  lemma CpfExemploPrimeiraSoma()
    ensures SomaPonderada("123456789", [10, 9, 8, 7, 6, 5, 4, 3, 2]) == 210
  {
    assert SomaPonderada("123", [10, 9, 8]) == 52;
    assert SomaPonderada("456", [7, 6, 5]) == 88;
    assert SomaPonderada("789", [4, 3, 2]) == 70;
    SomaPonderadaConcat("123", [10, 9, 8], "456", [7, 6, 5]);
    SomaPonderadaConcat("123456", [10, 9, 8, 7, 6, 5], "789", [4, 3, 2]);
  }

  lemma CpfExemploSegundaSoma()
    ensures SomaPonderada("1234567890", [11, 10, 9, 8, 7, 6, 5, 4, 3, 2]) == 255
  {
    assert SomaPonderada("1234", [11, 10, 9, 8]) == 90;
    assert SomaPonderada("567", [7, 6, 5]) == 106;
    assert SomaPonderada("890", [4, 3, 2]) == 59;
    SomaPonderadaConcat("1234", [11, 10, 9, 8], "567", [7, 6, 5]);
    SomaPonderadaConcat("1234567", [11, 10, 9, 8, 7, 6, 5], "890", [4, 3, 2]);
  }

  lemma PesosCpf()
    ensures PesosDecrescentes(10, 9) == [10, 9, 8, 7, 6, 5, 4, 3, 2]
    ensures PesosDecrescentes(11, 10) == [11, 10, 9, 8, 7, 6, 5, 4, 3, 2]
  {
  }

  lemma CpfExemploPrimeiroDigito()
    ensures DigitoVerificador("123456789", PesosDecrescentes(10, 9)) == 0
  {
    PesosCpf();
    CpfExemploPrimeiraSoma();
    var soma := SomaPonderada("123456789", PesosDecrescentes(10, 9));
    assert soma % 11 == 1;
  }

  lemma CpfExemploSegundoDigito()
    ensures DigitoVerificador("1234567890", PesosDecrescentes(11, 10)) == 9
  {
    PesosCpf();
    CpfExemploSegundaSoma();
    var soma := SomaPonderada("1234567890", PesosDecrescentes(11, 10));
    assert soma % 11 == 2;
  }

  lemma CpfExemploBase()
    ensures "123456789" + [Caractere(0)] == "1234567890"
    ensures "1234567890" + [Caractere(9)] == "12345678909"
  {
  }

  /** The check digits of the base 123456789 are 0 and 9. */
  lemma CpfExemploCompleto()
    ensures CompletarCpf("123456789") == "12345678909"
  {
    CpfExemploPrimeiroDigito();
    CpfExemploBase();
    CpfExemploSegundoDigito();
  }

  /** The digits 12345678909 form a valid CPF. */
  lemma CpfExemploDigitos()
    ensures ValidarCpf("12345678909") == Valido
  {
    CpfExemploCompleto();
    assert "123456789"[1] != "123456789"[0];
    CompletarCpfValido("123456789");
  }

  /** The punctuated form of the example CPF. */
  lemma CpfExemploPontuado()
    ensures PontuarCpf("12345678909") == "123.456.789-09"
  {
    var d := "12345678909";
    assert d[..3] == "123" && d[3..6] == "456" && d[6..9] == "789" && d[9..11] == "09";
  }

  /** Every text whose digits are eleven 1s, "111.111.111-11" among them, is refused as a repetition. */
  lemma ExemploCpfRepetido(cpf: string)
    requires SoDigitos(cpf) == "11111111111"
    ensures ValidarCpf(cpf) == Invalido("CPF inválido")
  {
    assert TodosIguais("11111111111");
  }

  lemma CpfExemploSoDigitos()
    ensures SoDigitos("12345678909") == "12345678909"
  {
    SoDigitosDeDigitos("12345678909");
  }

  lemma FormatarCpfDeDigitos(d: string)
    requires |d| == 11 && SoDigitos(d) == d
    ensures FormatarCpf(d) == PontuarCpf(d)
  {
  }

  /** formatar_cpf on the example's digits gives its punctuated text. */
  lemma CpfExemploFormatado()
    ensures FormatarCpf("12345678909") == "123.456.789-09"
  {
    CpfExemploSoDigitos();
    FormatarCpfDeDigitos("12345678909");
    CpfExemploPontuado();
  }

  /** The punctuated text "123.456.789-09" is a valid CPF. */
  lemma CpfPontuadoValido()
    ensures ValidarCpf("123.456.789-09") == Valido
  {
    CpfExemploDigitos();
    CpfExemploFormatado();
    FormatarCpfPreservaValidade("12345678909");
  }

  lemma CpfRepetidoSoDigitos()
    ensures SoDigitos("11111111111") == "11111111111"
  {
    SoDigitosDeDigitos("11111111111");
  }

  lemma CpfRepetidoPontuacao()
    ensures PontuarCpf("11111111111") == "111.111.111-11"
  {
    var d := "11111111111";
    assert d[..3] == "111" && d[3..6] == "111" && d[6..9] == "111" && d[9..11] == "11";
  }

  /** The digits of "111.111.111-11" are eleven 1s. */
  lemma CpfRepetidoDigitos()
    ensures SoDigitos("111.111.111-11") == "11111111111"
  {
    CpfRepetidoSoDigitos();
    FormatarCpfDeDigitos("11111111111");
    CpfRepetidoPontuacao();
    FormatarCpfCorreto("11111111111");
  }

  /** The punctuated text "111.111.111-11" is refused as a repetition. */
  lemma CpfRepetidoPontuado()
    ensures ValidarCpf("111.111.111-11") == Invalido("CPF inválido")
  {
    CpfRepetidoDigitos();
    ExemploCpfRepetido("111.111.111-11");
  }

  lemma CnpjExemploPrimeiraSoma()
    ensures SomaPonderada("112223330001", PesosCnpjPrimeiro) == 102
  {
    assert SomaPonderada("1122", [5, 4, 3, 2]) == 19;
    assert SomaPonderada("2333", [9, 8, 7, 6]) == 81;
    assert SomaPonderada("0001", [5, 4, 3, 2]) == 2;
    SomaPonderadaConcat("1122", [5, 4, 3, 2], "2333", [9, 8, 7, 6]);
    SomaPonderadaConcat("11222333", [5, 4, 3, 2, 9, 8, 7, 6], "0001", [5, 4, 3, 2]);
  }

  lemma CnpjExemploSegundaSoma()
    ensures SomaPonderada("1122233300018", PesosCnpjSegundo) == 120
  {
    assert SomaPonderada("1122", [6, 5, 4, 3]) == 25;
    assert SomaPonderada("2333", [2, 9, 8, 7]) == 76;
    assert SomaPonderada("00018", [6, 5, 4, 3, 2]) == 19;
    SomaPonderadaConcat("1122", [6, 5, 4, 3], "2333", [2, 9, 8, 7]);
    SomaPonderadaConcat("11222333", [6, 5, 4, 3, 2, 9, 8, 7], "00018", [6, 5, 4, 3, 2]);
  }

  lemma CnpjExemploBase()
    ensures "112223330001" + [Caractere(8)] == "1122233300018"
    ensures "1122233300018" + [Caractere(1)] == "11222333000181"
  {
  }

  lemma CnpjExemploPrimeiroDigito()
    ensures DigitoVerificador("112223330001", PesosCnpjPrimeiro) == 8
  {
    CnpjExemploPrimeiraSoma();
    var soma := SomaPonderada("112223330001", PesosCnpjPrimeiro);
    assert soma % 11 == 3;
  }

  lemma CnpjExemploSegundoDigito()
    ensures DigitoVerificador("1122233300018", PesosCnpjSegundo) == 1
  {
    CnpjExemploSegundaSoma();
    var soma := SomaPonderada("1122233300018", PesosCnpjSegundo);
    assert soma % 11 == 10;
  }

  /** The check digits of the base 112223330001 are 8 and 1. */
  lemma CnpjExemploCompleto()
    ensures CompletarCnpj("112223330001") == "11222333000181"
  {
    CnpjExemploPrimeiroDigito();
    CnpjExemploBase();
    CnpjExemploSegundoDigito();
  }

  /** The digits 11222333000181 form a valid CNPJ. */
  lemma CnpjExemploDigitos()
    ensures ValidarCnpj("11222333000181") == Valido
  {
    CnpjExemploCompleto();
    assert "112223330001"[2] != "112223330001"[0];
    CompletarCnpjValido("112223330001");
  }

  /** The punctuated form of the example CNPJ. */
  lemma CnpjExemploPontuado()
    ensures PontuarCnpj("11222333000181") == "11.222.333/0001-81"
  {
    var d := "11222333000181";
    assert d[..2] == "11" && d[2..5] == "222" && d[5..8] == "333";
    assert d[8..12] == "0001" && d[12..14] == "81";
  }

  /** formatar_cnpj on the example's digits gives its punctuated text. */
  lemma CnpjExemploFormatado()
    ensures FormatarCnpj("11222333000181") == "11.222.333/0001-81"
  {
    CnpjExemploSoDigitos();
    FormatarCnpjDeDigitos("11222333000181");
    CnpjExemploPontuado();
  }

  lemma CnpjExemploSoDigitos()
    ensures SoDigitos("11222333000181") == "11222333000181"
  {
    SoDigitosDeDigitos("11222333000181");
  }

  lemma FormatarCnpjDeDigitos(d: string)
    requires |d| == 14 && SoDigitos(d) == d
    ensures FormatarCnpj(d) == PontuarCnpj(d)
  {
  }

  /** The punctuated text "11.222.333/0001-81" is a valid CNPJ. */
  lemma CnpjPontuadoValido()
    ensures ValidarCnpj("11.222.333/0001-81") == Valido
  {
    CnpjExemploDigitos();
    CnpjExemploFormatado();
    FormatarCnpjPreservaValidade("11222333000181");
  }

  /** "123" has too few digits for a phone. */
  lemma ExemploTelefoneCurto()
    ensures ValidarTelefone("123") == Invalido("Telefone deve ter 10 ou 11 dígitos")
  {
    SoDigitosDeDigitos("123");
  }
}
