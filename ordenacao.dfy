/**
 * The row orders of the store's queries (`ORDER BY` in database.py) and the
 * `LIKE '%term%'` match.
 *
 * SQL leaves the order of rows with equal keys open; the model fixes one
 * (insertion order among equals) and promises only what SQL promises: the
 * result is sorted by the key and holds exactly the selected rows.
 */
module Ordenacao {

  // ---------------------------------------------------------------------------
  // Sorting by a total preorder
  // ---------------------------------------------------------------------------

  /** `antes` is a total preorder: every pair is comparable and it is transitive. */
  ghost predicate PreordemTotal<T(!new)>(antes: (T, T) -> bool) {
    && (forall a, b :: antes(a, b) || antes(b, a))
    && (forall a, b, c :: antes(a, b) && antes(b, c) ==> antes(a, c))
  }

  /** Every element comes `antes` every later one. */
  ghost predicate Ordenada<T>(s: seq<T>, antes: (T, T) -> bool) {
    forall i, j :: 0 <= i < j < |s| ==> antes(s[i], s[j])
  }

  /** Puts `x` before the first element of `s` that it comes before. */
  function Inserir<T(!new)>(x: T, s: seq<T>, antes: (T, T) -> bool): (r: seq<T>)
    ensures multiset(r) == multiset(s) + multiset{x}
    ensures |r| == |s| + 1
    ensures forall y :: y in r <==> y == x || y in s
  {
    if s == [] then [x]
    else if antes(x, s[0]) then [x] + s
    else
      assert s == [s[0]] + s[1..];
      [s[0]] + Inserir(x, s[1..], antes)
  }

  /** Inserting into a sorted sequence keeps it sorted. */
  lemma {:induction false} InserirOrdenada<T(!new)>(x: T, s: seq<T>, antes: (T, T) -> bool)
    requires PreordemTotal(antes)
    requires Ordenada(s, antes)
    ensures Ordenada(Inserir(x, s, antes), antes)
  {
    if s != [] && !antes(x, s[0]) {
      InserirOrdenada(x, s[1..], antes);
      assert antes(s[0], x);
      InserirDepoisDoPrimeiro(x, s, antes);
    } else if s != [] {
      var r := [x] + s;
      forall i, j | 0 <= i < j < |r|
        ensures antes(r[i], r[j])
      {
        if i == 0 && j > 1 {
          assert antes(x, s[0]) && antes(s[0], s[j - 1]);
        }
      }
    }
  }

  /** The step of InserirOrdenada where `x` goes after the first element. */
  lemma InserirDepoisDoPrimeiro<T(!new)>(x: T, s: seq<T>, antes: (T, T) -> bool)
    requires Ordenada(s, antes) && s != [] && !antes(x, s[0]) && antes(s[0], x)
    requires Ordenada(Inserir(x, s[1..], antes), antes)
    ensures Ordenada(Inserir(x, s, antes), antes)
  {
    var resto := Inserir(x, s[1..], antes);
    PrimeiroAntesDoResto(s, antes);
    var r := [s[0]] + resto;
    assert Inserir(x, s, antes) == r;
    forall i, j | 0 <= i < j < |r|
      ensures antes(r[i], r[j])
    {
      if i == 0 {
        assert r[j] == resto[j - 1];
        assert r[j] in resto;
      } else {
        assert r[i] == resto[i - 1] && r[j] == resto[j - 1];
      }
    }
  }

  /** In a sorted sequence the first element comes before every later one. */
  lemma PrimeiroAntesDoResto<T>(s: seq<T>, antes: (T, T) -> bool)
    requires Ordenada(s, antes) && s != []
    ensures forall y :: y in s[1..] ==> antes(s[0], y)
  {
    forall y | y in s[1..]
      ensures antes(s[0], y)
    {
      var k :| 0 <= k < |s[1..]| && s[1..][k] == y;
      assert s[k + 1] == y;
    }
  }

  /** ORDER BY: a rearrangement of the selected rows. */
  function Ordenar<T(!new)>(s: seq<T>, antes: (T, T) -> bool): (r: seq<T>)
    ensures multiset(r) == multiset(s)
    ensures |r| == |s|
  {
    if s == [] then []
    else
      assert s == [s[0]] + s[1..];
      Inserir(s[0], Ordenar(s[1..], antes), antes)
  }

  /** ... which is sorted whenever the order is a total preorder. */
  lemma {:induction false} OrdenarOrdena<T(!new)>(s: seq<T>, antes: (T, T) -> bool)
    requires PreordemTotal(antes)
    ensures Ordenada(Ordenar(s, antes), antes)
  {
    if s != [] {
      OrdenarOrdena(s[1..], antes);
      InserirOrdenada(s[0], Ordenar(s[1..], antes), antes);
    }
  }

  /** Sorting keeps exactly the rows it was given. */
  lemma OrdenarMesmosElementos<T(!new)>(s: seq<T>, antes: (T, T) -> bool, x: T)
    ensures x in Ordenar(s, antes) <==> x in s
  {
    var r := Ordenar(s, antes);
    assert x in r <==> x in multiset(r);
    assert x in s <==> x in multiset(s);
  }

  /** What ORDER BY promises: the same rows, sorted. */
  lemma OrdenarCorreto<T(!new)>(s: seq<T>, antes: (T, T) -> bool)
    requires PreordemTotal(antes)
    ensures Ordenada(Ordenar(s, antes), antes)
    ensures forall x :: x in Ordenar(s, antes) <==> x in s
  {
    OrdenarOrdena(s, antes);
    forall x ensures x in Ordenar(s, antes) <==> x in s {
      OrdenarMesmosElementos(s, antes, x);
    }
  }

  // ---------------------------------------------------------------------------
  // Text order (SQLite's BINARY collation: code point by code point)
  // ---------------------------------------------------------------------------

  /** `a` sorts at or before `b`: a prefix first, else the first differing character decides. */
  predicate TextoAntes(a: string, b: string) {
    if a == [] then true
    else if b == [] then false
    else if a[0] != b[0] then a[0] < b[0]
    else TextoAntes(a[1..], b[1..])
  }

  lemma {:induction false} TextoAntesTotal(a: string, b: string)
    ensures TextoAntes(a, b) || TextoAntes(b, a)
  {
    if a != [] && b != [] && a[0] == b[0] {
      TextoAntesTotal(a[1..], b[1..]);
    }
  }

  lemma {:induction false} TextoAntesTransitivo(a: string, b: string, c: string)
    requires TextoAntes(a, b) && TextoAntes(b, c)
    ensures TextoAntes(a, c)
  {
    if a != [] && b != [] && c != [] && a[0] == b[0] && b[0] == c[0] {
      TextoAntesTransitivo(a[1..], b[1..], c[1..]);
    }
  }

  /** Texts that sort both ways are equal, so the text order is a total order. */
  lemma {:induction false} TextoAntesAntissimetrico(a: string, b: string)
    requires TextoAntes(a, b) && TextoAntes(b, a)
    ensures a == b
  {
    if a != [] && b != [] {
      TextoAntesAntissimetrico(a[1..], b[1..]);
      assert a == [a[0]] + a[1..] && b == [b[0]] + b[1..];
    }
  }

  // ---------------------------------------------------------------------------
  // LIKE '%term%'
  // ---------------------------------------------------------------------------

  /** SQLite's LIKE folds ASCII letters only. */
  function Minuscula(c: char): char {
    if 'A' <= c <= 'Z' then (c as int + 32) as char else c
  }

  /** `termo` occurs in `texto` at position `i`, ignoring ASCII case. */
  predicate OcorreEm(texto: string, termo: string, i: nat)
    requires i + |termo| <= |texto|
  {
    forall k :: 0 <= k < |termo| ==> Minuscula(texto[i + k]) == Minuscula(termo[k])
  }

  /** `texto LIKE '%termo%'` (wildcards inside the term are not modelled). */
  predicate Contem(texto: string, termo: string) {
    exists i: nat :: i + |termo| <= |texto| && OcorreEm(texto, termo, i)
  }

  /** The empty term, `'%%'`, matches every text. */
  lemma ContemVazio(texto: string)
    ensures Contem(texto, "")
  {
    assert OcorreEm(texto, "", 0);
  }

  /** Typing more of the term can only narrow a search: a longer term's match is a match of its prefix. */
  lemma ContemPrefixoDoTermo(texto: string, termo: string, mais: string)
    requires Contem(texto, termo + mais)
    ensures Contem(texto, termo)
  {
    var i: nat :| i + |termo + mais| <= |texto| && OcorreEm(texto, termo + mais, i);
    forall k | 0 <= k < |termo| ensures Minuscula(texto[i + k]) == Minuscula(termo[k]) {
      assert (termo + mais)[k] == termo[k];
    }
    assert OcorreEm(texto, termo, i);
  }

  /** A text that matches keeps matching when more text surrounds it. */
  lemma ContemEstende(prefixo: string, texto: string, sufixo: string, termo: string)
    requires Contem(texto, termo)
    ensures Contem(prefixo + texto + sufixo, termo)
  {
    var i: nat :| i + |termo| <= |texto| && OcorreEm(texto, termo, i);
    var maior := prefixo + texto + sufixo;
    forall k | 0 <= k < |termo| ensures Minuscula(maior[|prefixo| + i + k]) == Minuscula(termo[k]) {
      assert maior[|prefixo| + i + k] == texto[i + k];
    }
    assert OcorreEm(maior, termo, |prefixo| + i);
  }

  /** Every ASCII letter of `s` folded to lower case. */
  function Minusculas(s: string): (r: string)
    ensures |r| == |s| && forall k :: 0 <= k < |s| ==> r[k] == Minuscula(s[k])
  {
    if s == [] then [] else [Minuscula(s[0])] + Minusculas(s[1..])
  }

  /** LIKE ignores ASCII case on both sides: folding the text or the term changes no match. */
  lemma ContemIgnoraCaixa(texto: string, termo: string)
    ensures Contem(texto, termo) <==> Contem(Minusculas(texto), Minusculas(termo))
  {
    var t, u := Minusculas(texto), Minusculas(termo);
    if Contem(texto, termo) {
      var i: nat :| i + |termo| <= |texto| && OcorreEm(texto, termo, i);
      assert OcorreEm(t, u, i);
    }
    if Contem(t, u) {
      var i: nat :| i + |u| <= |t| && OcorreEm(t, u, i);
      assert OcorreEm(texto, termo, i);
    }
  }

  // ---------------------------------------------------------------------------
  // WHERE: keeping the selected rows, in their stored order
  // ---------------------------------------------------------------------------

  function Filtrar<T(!new)>(s: seq<T>, p: T -> bool): (r: seq<T>)
    ensures forall x :: x in r <==> x in s && p(x)
    ensures forall x :: multiset(r)[x] == if p(x) then multiset(s)[x] else 0
    ensures multiset(r) <= multiset(s)
    ensures |r| <= |s|
  {
    if s == [] then []
    else
      assert s == [s[0]] + s[1..];
      (if p(s[0]) then [s[0]] else []) + Filtrar(s[1..], p)
  }
}
