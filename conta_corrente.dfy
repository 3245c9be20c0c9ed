/**
 * The checking account of ByteBank (class ContaCorrente) and the process-wide
 * account registry that the C# class keeps in static members.
 *
 * The balance is a `real`, so that every "exactly v" below is exact; the C#
 * balance is an IEEE double.  Errors that the C# code throws are returned as
 * `Fail`/`Failure` values carrying the same information.
 */
module Modelos {
  import opened Wrappers

  /** The exceptions thrown by the account operations. */
  datatype Erro =
      /** ArgumentException; `parametro` is the name passed with `nameof`. */
    | ArgumentoInvalido(parametro: string)
      /** SaldoInsuficienteException, carrying the balance and the requested amount. */
    | SaldoInsuficiente(saldo: real, valor: real)
      /** OperacaoFinanceiraException, wrapping the exception that caused it. */
    | OperacaoFinanceira(causa: Erro)

  /** The mutable part of one account: its balance and its two failure counters. */
  datatype Estado = Estado(saldo: real, saquesNaoPermitidos: nat, transferenciasNaoPermitidas: nat)

  /** A freshly constructed account: zero balance, no failed operations. */
  const EstadoInicial := Estado(0.0, 0, 0)

  /** The account invariant: the balance is never negative. */
  predicate SaldoValido(e: Estado)
  {
    e.saldo >= 0.0
  }

  /** The state of an account after one operation, and whether the operation succeeded. */
  datatype Efeito = Efeito(depois: Estado, resultado: Outcome<Erro>)

  /** The states of both accounts after a transfer, and whether the transfer succeeded. */
  datatype EfeitoTransferencia = EfeitoTransferencia(origem: Estado, destino: Estado, resultado: Outcome<Erro>)

  /** The `Saldo` setter: a negative value is silently ignored. */
  function AtribuiSaldo(e: Estado, valor: real): (e': Estado)
    ensures valor < 0.0 ==> e' == e
    ensures valor >= 0.0 ==> e'.saldo == valor
    ensures e'.saquesNaoPermitidos == e.saquesNaoPermitidos
    ensures e'.transferenciasNaoPermitidas == e.transferenciasNaoPermitidas
    ensures SaldoValido(e) ==> SaldoValido(e')
  {
    if valor < 0.0 then e else e.(saldo := valor)
  }

  /** `Sacar`: a withdrawal.  Only the insufficient-funds path bumps a counter. */
  function Saque(e: Estado, valor: real): (s: Efeito)
    ensures s.resultado.Pass? <==> 0.0 <= valor <= e.saldo
    ensures s.resultado.Pass? ==> s.depois == e.(saldo := e.saldo - valor)
    ensures valor < 0.0 ==> s == Efeito(e, Fail(ArgumentoInvalido("valor")))
    ensures 0.0 <= valor && e.saldo < valor ==>
              s.depois == e.(saquesNaoPermitidos := e.saquesNaoPermitidos + 1) &&
              s.resultado == Fail(SaldoInsuficiente(e.saldo, valor))
    ensures s.depois.transferenciasNaoPermitidas == e.transferenciasNaoPermitidas
    ensures SaldoValido(e) ==> SaldoValido(s.depois)
  {
    if valor < 0.0 then
      Efeito(e, Fail(ArgumentoInvalido("valor")))
    else if e.saldo < valor then
      Efeito(e.(saquesNaoPermitidos := e.saquesNaoPermitidos + 1), Fail(SaldoInsuficiente(e.saldo, valor)))
    else
      Efeito(e.(saldo := e.saldo - valor), Pass)
  }

  /** `Depositar`: a deposit of a strictly positive amount. */
  function Deposito(e: Estado, valor: real): (d: Efeito)
    ensures d.resultado.Pass? <==> valor > 0.0
    ensures d.resultado.Pass? ==> d.depois == e.(saldo := e.saldo + valor)
    ensures d.resultado.Fail? ==> d == Efeito(e, Fail(ArgumentoInvalido("valor")))
    ensures SaldoValido(e) ==> SaldoValido(d.depois)
  {
    if valor <= 0.0 then
      Efeito(e, Fail(ArgumentoInvalido("valor")))
    else
      Efeito(e.(saldo := e.saldo + valor), Pass)
  }

  /**
   * `Transferir` between two distinct accounts: a withdrawal from the origin
   * followed, only if it succeeded, by a deposit into the destination.
   */
  function Transferencia(origem: Estado, destino: Estado, valor: real): (t: EfeitoTransferencia)
    ensures t.resultado.Pass? <==> 0.0 < valor <= origem.saldo
    ensures t.resultado.Pass? ==>
              t.origem == origem.(saldo := origem.saldo - valor) &&
              t.destino == destino.(saldo := destino.saldo + valor)
    ensures valor <= 0.0 ==> t == EfeitoTransferencia(origem, destino, Fail(ArgumentoInvalido("valor")))
    ensures 0.0 < valor && origem.saldo < valor ==>
              t.origem == Estado(origem.saldo, origem.saquesNaoPermitidos + 1, origem.transferenciasNaoPermitidas + 1) &&
              t.destino == destino &&
              t.resultado == Fail(OperacaoFinanceira(SaldoInsuficiente(origem.saldo, valor)))
    ensures t.origem.saldo + t.destino.saldo == origem.saldo + destino.saldo
    ensures SaldoValido(origem) && SaldoValido(destino) ==> SaldoValido(t.origem) && SaldoValido(t.destino)
  {
    if valor <= 0.0 then
      EfeitoTransferencia(origem, destino, Fail(ArgumentoInvalido("valor")))
    else
      var saque := Saque(origem, valor);
      if saque.resultado.Fail? then
        var o := saque.depois.(transferenciasNaoPermitidas := saque.depois.transferenciasNaoPermitidas + 1);
        EfeitoTransferencia(o, destino, Fail(OperacaoFinanceira(saque.resultado.error)))
      else
        var deposito := Deposito(destino, valor);
        EfeitoTransferencia(saque.depois, deposito.depois, deposito.resultado)
  }

  /**
   * `Transferir` with the account itself as destination: the deposit sees the
   * state the withdrawal left, so the balance nets to zero.
   */
  function TransferenciaParaSi(e: Estado, valor: real): (s: Efeito)
    ensures s.depois.saldo == e.saldo
    ensures s.resultado == Transferencia(e, e, valor).resultado
    ensures s.depois.saquesNaoPermitidos == Transferencia(e, e, valor).origem.saquesNaoPermitidos
    ensures s.depois.transferenciasNaoPermitidas == Transferencia(e, e, valor).origem.transferenciasNaoPermitidas
  {
    if valor <= 0.0 then
      Efeito(e, Fail(ArgumentoInvalido("valor")))
    else
      var saque := Saque(e, valor);
      if saque.resultado.Fail? then
        var e' := saque.depois.(transferenciasNaoPermitidas := saque.depois.transferenciasNaoPermitidas + 1);
        Efeito(e', Fail(OperacaoFinanceira(saque.resultado.error)))
      else
        Deposito(saque.depois, valor)
  }

  /** A successful deposit is undone by withdrawing the same amount. */
  lemma DepositoDesfeitoPorSaque(e: Estado, valor: real)
    requires SaldoValido(e) && valor > 0.0
    ensures Saque(Deposito(e, valor).depois, valor) == Efeito(e, Pass)
  {

  }

  /** A successful withdrawal of a positive amount is undone by depositing it back. */
  lemma SaqueDesfeitoPorDeposito(e: Estado, valor: real)
    requires 0.0 < valor <= e.saldo
    ensures Deposito(Saque(e, valor).depois, valor) == Efeito(e, Pass)
  {
  }

  /**
   * The operation fee recomputed by every construction, `30 / total` in C#
   * integer division.  Both operands are positive here, where C#'s truncating
   * division and Dafny's Euclidean division agree.
   */
  function TaxaOperacao(totalDeContasCriadas: int): (taxa: int)
    requires totalDeContasCriadas >= 1
    ensures 0 <= taxa <= 30
    ensures taxa * totalDeContasCriadas <= 30 < (taxa + 1) * totalDeContasCriadas
    ensures totalDeContasCriadas > 30 ==> taxa == 0
  {
    30 / totalDeContasCriadas
  }

  /** Creating more accounts never raises the fee. */
  lemma TaxaNaoCresce(menor: int, maior: int)
    requires 1 <= menor <= maior
    ensures TaxaOperacao(maior) <= TaxaOperacao(menor)
  {
    var a, b := TaxaOperacao(menor), TaxaOperacao(maior);
    MultiplicacaoMonotona(menor, maior, b);
    assert b * menor < (a + 1) * menor;
    MultiplicacaoMonotona(a + 1, b, menor);
  }

  /** Multiplying by a non-negative factor preserves order. */
  lemma MultiplicacaoMonotona(x: int, y: int, k: int)
    requires k >= 0
    ensures x <= y ==> x * k <= y * k
  {
  }

  /**
   * The argument checks of the C# constructor, as written: both checks test
   * `numero`, the first reports the parameter "agencia", so `agencia` is never
   * validated and the second check can never fire.
   */
  function ErroDeArgumentos(agencia: int, numero: int): (erro: Option<Erro>)
    ensures erro.None? <==> numero > 0
    ensures erro.Some? ==> erro.value == ArgumentoInvalido("agencia")
  {
    if numero <= 0 then Some(ArgumentoInvalido("agencia"))
    else if numero <= 0 then Some(ArgumentoInvalido("numero"))
    else None
  }

  /** As written, a zero branch number with a valid account number is accepted. */
  lemma AgenciaNaoValidada()
    ensures ErroDeArgumentos(0, 1).None?
  {
  }

  /**
   * The argument checks as documented for the constructor parameters: both
   * `agencia` and `numero` must be greater than zero, and the error names the
   * first parameter that is not.
   */
  function ErroDeArgumentosCorrigido(agencia: int, numero: int): (erro: Option<Erro>)
    ensures erro.None? <==> agencia > 0 && numero > 0
    ensures agencia <= 0 ==> erro == Some(ArgumentoInvalido("agencia"))
    ensures agencia > 0 && numero <= 0 ==> erro == Some(ArgumentoInvalido("numero"))
  {
    if agencia <= 0 then Some(ArgumentoInvalido("agencia"))
    else if numero <= 0 then Some(ArgumentoInvalido("numero"))
    else None
  }

  /**
   * The static state of the C# class: how many accounts were created and the
   * fee derived from that number.  Both start at the C# default, zero.
   */
  class Registro {
    var totalDeContasCriadas: nat
    var taxaOperacao: int

    constructor ()
      ensures totalDeContasCriadas == 0 && taxaOperacao == 0
    {
      totalDeContasCriadas := 0;
      taxaOperacao := 0;
    }

    /** The two static updates at the end of a successful construction. */
    method RegistraCriacao()
      modifies this
      ensures totalDeContasCriadas == old(totalDeContasCriadas) + 1
      ensures taxaOperacao == TaxaOperacao(totalDeContasCriadas)
    {
      totalDeContasCriadas := totalDeContasCriadas + 1;
      taxaOperacao := 30 / totalDeContasCriadas;
    }
  }

  /** The holder of an account; Cliente.cs is not part of this model. */
  class Cliente {
  }

  class ContaCorrente {
    const agencia: int
    const numero: int
    var titular: Cliente?
    var saldo: real
    var contadorSaquesNaoPermitidos: nat
    var contadorTransferenciasNaoPermitidas: nat

    /** The part of the account that the operations change. */
    function EstadoAtual(): Estado
      reads this
    {
      Estado(saldo, contadorSaquesNaoPermitidos, contadorTransferenciasNaoPermitidas)
    }

    predicate Valid()
      reads this
    {
      SaldoValido(EstadoAtual())
    }

    /** Field initialisation of a new account; argument checks and static updates are in Criar. */
    constructor Inicial(agencia: int, numero: int)
      ensures this.agencia == agencia && this.numero == numero
      ensures EstadoAtual() == EstadoInicial && titular == null
      ensures Valid()
    {
      this.agencia := agencia;
      this.numero := numero;
      titular := null;
      saldo := 0.0;
      contadorSaquesNaoPermitidos := 0;
      contadorTransferenciasNaoPermitidas := 0;
    }

    /**
     * The C# constructor `ContaCorrente(agencia, numero)`.  It fails exactly
     * when `numero <= 0`, reporting "agencia", and then leaves the registry
     * alone; otherwise it counts one more account and recomputes the fee.
     */
    static method Criar(agencia: int, numero: int, registro: Registro) returns (r: Result<ContaCorrente, Erro>)
      modifies registro
      ensures r.Failure? <==> numero <= 0
      ensures r.Failure? ==>
                r.error == ArgumentoInvalido("agencia") &&
                registro.totalDeContasCriadas == old(registro.totalDeContasCriadas) &&
                registro.taxaOperacao == old(registro.taxaOperacao)
      ensures r.Success? ==>
                fresh(r.value) &&
                r.value.agencia == agencia && r.value.numero == numero &&
                r.value.EstadoAtual() == EstadoInicial && r.value.titular == null && r.value.Valid() &&
                registro.totalDeContasCriadas == old(registro.totalDeContasCriadas) + 1 &&
                registro.taxaOperacao == TaxaOperacao(registro.totalDeContasCriadas)
    {
      var erro := ErroDeArgumentos(agencia, numero);
      if erro.Some? {
        return Failure(erro.value);
      }
      var conta := new ContaCorrente.Inicial(agencia, numero);
      registro.RegistraCriacao();
      return Success(conta);
    }

    /** The `Saldo` setter. */
    method SetSaldo(valor: real)
      requires Valid()
      modifies this`saldo
      ensures Valid()
      ensures EstadoAtual() == AtribuiSaldo(old(EstadoAtual()), valor)
    {
      if valor < 0.0 {
        return;
      }
      saldo := valor;
    }

    method Sacar(valor: real) returns (r: Outcome<Erro>)
      requires Valid()
      modifies this`saldo, this`contadorSaquesNaoPermitidos
      ensures Valid()
      ensures Efeito(EstadoAtual(), r) == Saque(old(EstadoAtual()), valor)
    {
      if valor < 0.0 {
        return Fail(ArgumentoInvalido("valor"));
      }
      if saldo < valor {
        contadorSaquesNaoPermitidos := contadorSaquesNaoPermitidos + 1;
        return Fail(SaldoInsuficiente(saldo, valor));
      }
      saldo := saldo - valor;
      r := Pass;
    }

    method Depositar(valor: real) returns (r: Outcome<Erro>)
      requires Valid()
      modifies this`saldo
      ensures Valid()
      ensures Efeito(EstadoAtual(), r) == Deposito(old(EstadoAtual()), valor)
    {
      if valor <= 0.0 {
        return Fail(ArgumentoInvalido("valor"));
      }
      saldo := saldo + valor;
      r := Pass;
    }

    /**
     * Withdraws from this account, then deposits into `contaDestino`.  A
     * withdrawal that fails for lack of funds is counted as a disallowed
     * transfer and reported wrapped; the destination is then untouched.
     */
    method Transferir(valor: real, contaDestino: ContaCorrente) returns (r: Outcome<Erro>)
      requires Valid() && contaDestino.Valid()
      modifies this`saldo, this`contadorSaquesNaoPermitidos, this`contadorTransferenciasNaoPermitidas
      modifies contaDestino`saldo
      ensures Valid() && contaDestino.Valid()
      ensures contaDestino != this ==>
                EfeitoTransferencia(EstadoAtual(), contaDestino.EstadoAtual(), r)
                == Transferencia(old(EstadoAtual()), old(contaDestino.EstadoAtual()), valor)
      ensures contaDestino == this ==>
                Efeito(EstadoAtual(), r) == TransferenciaParaSi(old(EstadoAtual()), valor)
    {
      if valor <= 0.0 {
        return Fail(ArgumentoInvalido("valor"));
      }
      var saque := Sacar(valor);
      if saque.Fail? {
        contadorTransferenciasNaoPermitidas := contadorTransferenciasNaoPermitidas + 1;
        return Fail(OperacaoFinanceira(saque.error));
      }
      r := contaDestino.Depositar(valor);
    }

    /**
     * `Equals(object)`: `obj` is the result of the C# cast `obj as ContaCorrente`,
     * so null stands for null and for any object that is not an account.
     */
    function Equals(obj: ContaCorrente?): (iguais: bool)
      ensures iguais <==> obj != null && obj.numero == numero && obj.agencia == agencia
      ensures iguais ==> CompareTo(obj) == 0
    {
      obj != null && numero == obj.numero && agencia == obj.agencia
    }

    /** `CompareTo(object)`: orders by account number only; a non-account (null) follows. */
    function CompareTo(obj: ContaCorrente?): (ordem: int)
      ensures ordem == -1 || ordem == 0 || ordem == 1
      ensures obj == null ==> ordem == -1
      ensures obj != null ==> (ordem < 0 <==> numero < obj.numero) && (ordem == 0 <==> numero == obj.numero)
    {
      if obj == null then -1
      else if numero < obj.numero then -1
      else if numero == obj.numero then 0
      else 1
    }
  }

  /** Equals is an equivalence relation between accounts. */
  lemma EqualsEquivalencia(a: ContaCorrente, b: ContaCorrente, c: ContaCorrente)
    ensures a.Equals(a)
    ensures a.Equals(b) ==> b.Equals(a)
    ensures a.Equals(b) && b.Equals(c) ==> a.Equals(c)
  {
  }

  /** Between two accounts, CompareTo is antisymmetric. */
  lemma CompareToAntissimetrico(a: ContaCorrente, b: ContaCorrente)
    ensures a.CompareTo(b) == -b.CompareTo(a)
  {
  }

  /** Between accounts, "precedes or ties" is transitive. */
  lemma CompareToTransitivo(a: ContaCorrente, b: ContaCorrente, c: ContaCorrente)
    ensures a.CompareTo(b) <= 0 && b.CompareTo(c) <= 0 ==> a.CompareTo(c) <= 0
  {
  }
}
