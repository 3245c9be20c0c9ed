/**
 * The query-string extractor ExtratorValorDeArgumentosURL: it keeps the part
 * of a URL after the first '?' and looks up `name=value` pairs in it, with the
 * name matched case-insensitively.
 *
 * C# lower-casing is culture-sensitive; here it is the ASCII, length-preserving
 * map LowerChar.  String searches are ordinal.
 */
module SistemaAgencia {
  import opened Wrappers

  /** The exceptions the extractor can throw. */
  datatype ErroUrl =
      /** ArgumentException for a null or empty URL. */
    | ArgumentoInvalido(parametro: string)
      /** ArgumentOutOfRangeException from `Substring`, with the offending start index. */
    | ForaDoIntervalo(indice: int)

  /** An extractor: the URL it was built from and the arguments part of it. */
  datatype Extrator = Extrator(url: string, argumentos: string)

  /** `p` occurs in `s` starting at index `i`. */
  predicate OcorreEm(p: string, s: string, i: int)
  {
    0 <= i && i + |p| <= |s| && s[i..i + |p|] == p
  }

  /** Occurrences in `s` past its first character are occurrences in its tail. */
  lemma OcorreNaCauda(p: string, s: string)
    requires |s| >= 1
    ensures forall j :: 1 <= j ==> (OcorreEm(p, s, j) <==> OcorreEm(p, s[1..], j - 1))
  {

  }

  /** Ordinal `string.IndexOf(string)`: the first index where `p` occurs in `s`, or -1. */
  function IndexOf(s: string, p: string): (i: int)
    ensures i >= 0 ==> OcorreEm(p, s, i) && forall j :: 0 <= j < i ==> !OcorreEm(p, s, j)
    ensures i < 0 ==> i == -1 && forall j :: !OcorreEm(p, s, j)
    decreases |s|
  {
    if |s| < |p| then -1
    else if s[..|p|] == p then 0
    else
      OcorreNaCauda(p, s);
      var j := IndexOf(s[1..], p);
      if j == -1 then -1 else j + 1
  }

  /** A one-character pattern occurs exactly where that character is. */
  lemma OcorreCaractere(s: string, c: char)
    ensures forall j :: OcorreEm([c], s, j) <==> 0 <= j < |s| && s[j] == c
  {
  }

  /** `string.IndexOf(char)`: the first index of `c` in `s`, or -1. */
  function IndexOfChar(s: string, c: char): (i: int)
    ensures -1 <= i < |s|
    ensures i == -1 <==> c !in s
    ensures i >= 0 ==> s[i] == c && c !in s[..i]
  {
    OcorreCaractere(s, c);
    IndexOf(s, [c])
  }

  /** ASCII lower-casing of one character. */
  function LowerChar(c: char): (l: char)
    ensures 'A' <= c <= 'Z' ==> l as int == c as int + 32
    ensures !('A' <= c <= 'Z') ==> l == c
    ensures !('A' <= l <= 'Z')
  {
    if 'A' <= c <= 'Z' then (c as int + 32) as char else c
  }

  /** `string.ToLower()`: lower-cases every character and keeps the length. */
  function ToLower(s: string): (r: string)
    ensures |r| == |s|
    ensures forall k :: 0 <= k < |s| ==> r[k] == LowerChar(s[k])
  {
    if s == [] then [] else [LowerChar(s[0])] + ToLower(s[1..])
  }

  lemma ToLowerIdempotente(s: string)
    ensures ToLower(ToLower(s)) == ToLower(s)
  {

  }

  /** A string without upper-case letters is its own lower-case form. */
  lemma ToLowerSemMaiusculas(s: string)
    requires forall k :: 0 <= k < |s| ==> !('A' <= s[k] <= 'Z')
    ensures ToLower(s) == s
  {

  }

  /**
   * The constructor: rejects a null (None) or empty URL, and otherwise keeps
   * the suffix after the first '?', or the whole URL when there is none.
   */
  function NovoExtrator(url: Option<string>): (r: Result<Extrator, ErroUrl>)
    ensures r.Success? <==> url.Some? && url.value != ""
    ensures r.Failure? ==> r.error == ArgumentoInvalido("url")
    ensures r.Success? ==> r.value.url == url.value && |r.value.argumentos| <= |url.value|
    ensures r.Success? && '?' !in url.value ==> r.value.argumentos == url.value
    ensures r.Success? && '?' in url.value ==>
              var k := |url.value| - |r.value.argumentos|;
              1 <= k && url.value[k - 1] == '?' && '?' !in url.value[..k - 1] &&
              r.value.argumentos == url.value[k..]
  {
    if url.None? || url.value == "" then
      Failure(ArgumentoInvalido("url"))
    else
      Success(Extrator(url.value, url.value[IndexOfChar(url.value, '?') + 1..]))
  }

  /** The text GetValor searches for: the lower-cased name followed by '='. */
  function Chave(nome: string): (k: string)
    ensures |k| == |nome| + 1 && k[..|nome|] == ToLower(nome) && k[|nome|] == '='
  {
    ToLower(nome) + "="
  }

  /**
   * Where GetValor starts reading: IndexOf's answer for the key in the
   * lower-cased arguments, plus the key's length.
   */
  function InicioDoValor(argumentos: string, nome: string): (inicio: int)
    ensures inicio >= |nome|
    ensures inicio == |nome| || inicio <= |argumentos|
  {
    IndexOf(ToLower(argumentos), Chave(nome)) + |Chave(nome)|
  }

  /**
   * The start is just after the first case-insensitive occurrence of
   * `nome=`; when there is none, it is IndexOf's -1 plus the key's length,
   * that is `|nome|`.
   */
  lemma InicioDoValorLocaliza(argumentos: string, nome: string)
    ensures var inicio := InicioDoValor(argumentos, nome);
            (inicio == |nome| <==> forall i :: !OcorreEm(Chave(nome), ToLower(argumentos), i)) &&
            (inicio > |nome| ==>
               var i := inicio - |nome| - 1;
               inicio <= |argumentos| &&
               OcorreEm(Chave(nome), ToLower(argumentos), i) &&
               forall j :: 0 <= j < i ==> !OcorreEm(Chave(nome), ToLower(argumentos), j))
  {

  }

  /**
   * `valor` is the text of `argumentos` that starts at `inicio` and runs up to
   * the first '&' after it, or to the end when there is none.
   */
  predicate ValorAPartirDe(argumentos: string, inicio: int, valor: string)
  {
    0 <= inicio && inicio + |valor| <= |argumentos| &&
    valor == argumentos[inicio..inicio + |valor|] && '&' !in valor &&
    (inicio + |valor| == |argumentos| || argumentos[inicio + |valor|] == '&')
  }

  /** At most one text is the value starting at a given index. */
  lemma ValorAPartirDeUnico(argumentos: string, inicio: int, v1: string, v2: string)
    requires ValorAPartirDe(argumentos, inicio, v1) && ValorAPartirDe(argumentos, inicio, v2)
    ensures v1 == v2
  {
  }

  /** A value read from the start of a suffix is the value read from where the suffix starts. */
  lemma ValorNoResto(argumentos: string, inicio: int, valor: string)
    requires 0 <= inicio <= |argumentos| && ValorAPartirDe(argumentos[inicio..], 0, valor)
    ensures ValorAPartirDe(argumentos, inicio, valor)
  {
    assert argumentos[inicio..][..|valor|] == argumentos[inicio..inicio + |valor|];
  }

  /** `Remove(IndexOf('&'))` when there is an '&': the text before the first '&'. */
  function CorteNoEComercial(s: string): (r: string)
    ensures ValorAPartirDe(s, 0, r)
  {
    var i := IndexOfChar(s, '&');
    if i == -1 then s else s[..i]
  }

  /**
   * `GetValor`, as written: the value is read from InicioDoValor, so when the
   * name does not occur it still slices from `|nome|`, returning unrelated
   * text, or fails when that is past the end.
   */
  function GetValor(e: Extrator, nome: string): (r: Result<string, ErroUrl>)
    ensures r.Success? <==> InicioDoValor(e.argumentos, nome) <= |e.argumentos|
    ensures r.Failure? ==> r.error == ForaDoIntervalo(InicioDoValor(e.argumentos, nome))
    ensures r.Success? ==> ValorAPartirDe(e.argumentos, InicioDoValor(e.argumentos, nome), r.value)
  {
    var inicio := InicioDoValor(e.argumentos, nome);
    if inicio > |e.argumentos| then
      Failure(ForaDoIntervalo(inicio))
    else
      var resto := e.argumentos[inicio..];
      var valor := CorteNoEComercial(resto);
      ValorNoResto(e.argumentos, inicio, valor);
      Success(valor)
  }

  /** A name that occurs (in any case) is always found. */
  lemma GetValorEncontrado(e: Extrator, nome: string, i: int)
    requires OcorreEm(Chave(nome), ToLower(e.argumentos), i)
    ensures GetValor(e, nome).Success?
  {

  }

  /** The lookup does not depend on the case of the name. */
  lemma GetValorIgnoraCaixa(e: Extrator, nome: string)
    ensures GetValor(e, nome) == GetValor(e, ToLower(nome))
  {
    ToLowerIdempotente(nome);
    assert Chave(ToLower(nome)) == Chave(nome);
    assert InicioDoValor(e.argumentos, ToLower(nome)) == InicioDoValor(e.argumentos, nome);
  }

  /** IndexOf is determined by its contract: the first occurrence is the answer. */
  lemma IndexOfPrimeiraOcorrencia(s: string, p: string, i: int)
    requires OcorreEm(p, s, i)
    requires forall j :: 0 <= j < i ==> !OcorreEm(p, s, j)
    ensures IndexOf(s, p) == i
  {
  }

  /** An upper-case name finds its lower-case argument, and the value is cut at '&'. */
  lemma GetValorExemplo(e: Extrator)
    requires e.argumentos == "b=2&a=1"
    ensures GetValor(e, "B") == Success("2")
  {
    var args := e.argumentos;
    assert args[0] == 'b' && args[1] == '=' && args[2] == '2' && args[3] == '&';
    assert args[4] == 'a' && args[5] == '=' && args[6] == '1';
    ToLowerSemMaiusculas(args);
    assert Chave("B") == "b=";
    assert args[0..2] == "b=";
    IndexOfPrimeiraOcorrencia(args, "b=", 0);
    assert InicioDoValor(args, "B") == 2;
    assert args[2..3] == "2";
    assert ValorAPartirDe(args, 2, "2");
    ValorAPartirDeUnico(args, 2, GetValor(e, "B").value, "2");
  }

  /**
   * The source as written: for a name that does not occur, the start is the
   * name's length, so the result is the text from there on (up to an '&'),
   * or an out-of-range failure when the name is longer than the arguments.
   */
  lemma GetValorNomeAusente(e: Extrator, nome: string)
    requires forall i :: !OcorreEm(Chave(nome), ToLower(e.argumentos), i)
    ensures |nome| <= |e.argumentos| ==>
              GetValor(e, nome).Success? && ValorAPartirDe(e.argumentos, |nome|, GetValor(e, nome).value)
    ensures |nome| > |e.argumentos| ==> GetValor(e, nome) == Failure(ForaDoIntervalo(|nome|))
  {

  }

  /** Looking up the absent name "x" in the arguments "a=1" yields "=1". */
  lemma GetValorNomeAusenteExemplo(e: Extrator)
    requires e.argumentos == "a=1"
    ensures GetValor(e, "x") == Success("=1")
  {

  }

  /**
   * The evidently intended lookup: None when the name does not occur;
   * otherwise the value GetValor returns, read from just after the match.
   */
  function GetValorCorrigido(e: Extrator, nome: string): (r: Option<string>)
    ensures r.None? ==> forall i :: !OcorreEm(Chave(nome), ToLower(e.argumentos), i)
    ensures (forall i :: !OcorreEm(Chave(nome), ToLower(e.argumentos), i)) ==> r.None?
    ensures r.Some? ==> GetValor(e, nome) == Success(r.value)
  {
    InicioDoValorLocaliza(e.argumentos, nome);
    var inicio := InicioDoValor(e.argumentos, nome);
    if inicio == |nome| then
      None
    else
      Some(CorteNoEComercial(e.argumentos[inicio..]))
  }
}
