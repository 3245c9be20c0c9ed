# ByteBank checking accounts and URL argument extractor, in Dafny

This project models two classes of the ByteBank C# project and proves their
contracts.

**`ContaCorrente`, the checking account** (`conta_corrente.dfy`, module `Modelos`).
An account has a branch (`agencia`), a number (`numero`), a balance (`saldo`),
an optional holder (`titular`) and two counters: disallowed withdrawals and
disallowed transfers. The model is a Dafny class with these fields. Its
methods update the fields in place: `SetSaldo` (the `Saldo` setter), `Sacar`,
`Depositar` and `Transferir`. Each method's postcondition ties the new state
and the outcome to a pure function of the old state: `AtribuiSaldo`, `Saque`,
`Deposito`, `Transferencia` and `TransferenciaParaSi`. The properties are
proved about those functions: exact balance changes, which counter moves on
which failure, the destination left untouched by a failed transfer, money
conserved by a transfer, and the balance never going negative (`Valid`).

The C# class keeps the number of accounts created and the operation fee in
static members. The model holds them in a `Registro` object that is passed
to `ContaCorrente.Criar`. `Criar` stands for the C# constructor, which can
fail. The C# exceptions become `Erro` values returned in `Fail`/`Failure`:
`ArgumentoInvalido` (the parameter name), `SaldoInsuficiente` (balance and
amount) and `OperacaoFinanceira` (wrapping its cause).

The constructor is modelled as written. Both argument checks test `numero`.
The first one reports the parameter `agencia`. So `agencia` is never
validated, any failure names `agencia`, and the second check
(ByteBank.Modelos/ContaCorrente.cs:79) can never fire. The doc-comments at
ByteBank.Modelos/ContaCorrente.cs:70-71 say both must be greater than zero;
the model follows the code, and the documented checks are stated separately
as `ErroDeArgumentosCorrigido` (see Findings). The fee is `30 / total` in integer division, reproduced exactly.

**`ExtratorValorDeArgumentosURL`, the query-string extractor** (`extrator.dfy`,
module `SistemaAgencia`). It is pure, so it is modelled on values. `NovoExtrator`
rejects a null or empty URL. Otherwise it keeps the text after the first `?`.
`GetValor` lower-cases the name, appends `=`, finds the first occurrence in
the lower-cased arguments and returns the original-case text from there up to
the next `&`. The model follows the code for a name that does not occur: the
read then starts at the name's length (see Findings).

`wrappers.dfy` holds the `Option`, `Result` and `Outcome` types used for
null values and thrown exceptions.

## Model

| member | source | states |
|---|---|---|
| `Modelos.AtribuiSaldo` | ByteBank.Modelos/ContaCorrente.cs:56-64 | A negative value leaves the state unchanged. A value ≥ 0 becomes the balance exactly. No counter changes. A non-negative balance stays non-negative. |
| `Modelos.ContaCorrente.SetSaldo` | ByteBank.Modelos/ContaCorrente.cs:56-64 | The new state is `AtribuiSaldo` of the old one. Only `saldo` may change (frame). The invariant `Valid` is kept. |
| `Modelos.Saque` | ByteBank.Modelos/ContaCorrente.cs:97-111 | Succeeds iff `0 ≤ v ≤ saldo`, and then the balance drops by exactly `v` with counters unchanged. `v < 0` fails with ArgumentoInvalido("valor") and changes nothing. `saldo < v` fails with SaldoInsuficiente(old balance, v), leaves the balance unchanged and adds exactly 1 to the withdrawal counter. The transfer counter never changes. The invariant is kept. |
| `Modelos.ContaCorrente.Sacar` | ByteBank.Modelos/ContaCorrente.cs:97-111 | New state and outcome equal `Saque` of the old state. Only the balance and the withdrawal counter may change. `Valid` is kept. |
| `Modelos.Deposito` | ByteBank.Modelos/ContaCorrente.cs:118-125 | Succeeds iff `v > 0`, and then the balance rises by exactly `v`. Otherwise it fails with ArgumentoInvalido("valor") and the state is unchanged. The invariant is kept. |
| `Modelos.ContaCorrente.Depositar` | ByteBank.Modelos/ContaCorrente.cs:118-125 | New state and outcome equal `Deposito` of the old state. Only the balance may change. `Valid` is kept. |
| `Modelos.Transferencia` | ByteBank.Modelos/ContaCorrente.cs:134-152 | Succeeds iff `0 < v ≤` origin balance, and then the origin loses exactly `v` and the destination gains exactly `v`, with no counter change. `v ≤ 0` fails with no change at all. Insufficient funds leave both balances unchanged and raise both origin counters by 1. The destination is untouched, and the error is OperacaoFinanceira(SaldoInsuficiente(balance, v)). The sum of the two balances is always conserved. The invariant is kept on both accounts. |
| `Modelos.TransferenciaParaSi` | ByteBank.Modelos/ContaCorrente.cs:134-152 | A transfer to the same account leaves its balance unchanged. Its outcome and counters are those of `Transferencia` from the account to itself. |
| `Modelos.ContaCorrente.Transferir` | ByteBank.Modelos/ContaCorrente.cs:134-152 | For distinct accounts, both new states and the outcome equal `Transferencia` of the old states. For a self-transfer they equal `TransferenciaParaSi`. Only the origin's balance and counters and the destination's balance may change. Both accounts stay `Valid`. |
| `Modelos.DepositoDesfeitoPorSaque` | ByteBank.Modelos/ContaCorrente.cs:97-125 | On a valid account, depositing `v > 0` and then withdrawing `v` succeeds and restores the exact original state. |
| `Modelos.SaqueDesfeitoPorDeposito` | ByteBank.Modelos/ContaCorrente.cs:97-125 | Withdrawing `0 < v ≤ saldo` and then depositing `v` restores the exact original state. |
| `Modelos.ErroDeArgumentos` | ByteBank.Modelos/ContaCorrente.cs:72-82 | The constructor's checks fail iff `numero ≤ 0`. The error is always ArgumentoInvalido("agencia"), whatever `agencia` is. |
| `Modelos.AgenciaNaoValidada` | ByteBank.Modelos/ContaCorrente.cs:74 | As written, branch 0 with account number 1 passes the argument checks. |
| `Modelos.ErroDeArgumentosCorrigido` | ByteBank.Modelos/ContaCorrente.cs:70-82 | The documented checks: no error iff both `agencia > 0` and `numero > 0`. A non-positive `agencia` gives ArgumentoInvalido("agencia"). A positive `agencia` with a non-positive `numero` gives ArgumentoInvalido("numero"). |
| `Modelos.TaxaOperacao` | ByteBank.Modelos/ContaCorrente.cs:88 | For total ≥ 1 the fee is ⌊30 / total⌋: `0 ≤ fee ≤ 30` and `fee·total ≤ 30 < (fee+1)·total`. It is 0 once more than 30 accounts exist. |
| `Modelos.TaxaNaoCresce` | ByteBank.Modelos/ContaCorrente.cs:87-88 | Creating more accounts never raises the fee. |
| `Modelos.Registro.constructor` | ByteBank.Modelos/ContaCorrente.cs:14-19 | The account total and the fee start at 0, the C# default of the two statics. |
| `Modelos.Registro.RegistraCriacao` | ByteBank.Modelos/ContaCorrente.cs:87-88 | The account total rises by exactly 1. The fee is recomputed from the new total. |
| `Modelos.ContaCorrente.Inicial` | ByteBank.Modelos/ContaCorrente.cs:84-85 | A new account stores `agencia` and `numero`, starts with zero balance, zero counters and no holder, and is `Valid`. |
| `Modelos.ContaCorrente.Criar` | ByteBank.Modelos/ContaCorrente.cs:72-89 | Fails iff `numero ≤ 0`, with ArgumentoInvalido("agencia"), and then the total and fee are unchanged. Otherwise it returns a fresh valid account with the given `agencia` and `numero` and zero state. The total then rises by exactly 1 and the fee is `TaxaOperacao(total)`, whose divisor is ≥ 1. |
| `Modelos.ContaCorrente.Equals` | ByteBank.Modelos/ContaCorrente.cs:168-178 | True iff the other is an account with the same `numero` and `agencia`. A non-account (null) is never equal. Equal accounts compare as 0. Balance and holder play no part. |
| `Modelos.EqualsEquivalencia` | ByteBank.Modelos/ContaCorrente.cs:168-178 | Equals is reflexive, symmetric and transitive on accounts. |
| `Modelos.ContaCorrente.CompareTo` | ByteBank.Modelos/ContaCorrente.cs:185-192 | Result is −1, 0 or 1. It is −1 for a non-account (null). Between accounts it is negative iff `numero` is smaller and 0 iff `numero` is equal, with branches ignored. |
| `Modelos.CompareToAntissimetrico` | ByteBank.Modelos/ContaCorrente.cs:185-192 | Between two accounts, `a.CompareTo(b) == -b.CompareTo(a)`. |
| `Modelos.CompareToTransitivo` | ByteBank.Modelos/ContaCorrente.cs:185-192 | "Precedes or ties" is transitive between accounts. |
| `SistemaAgencia.NovoExtrator` | ByteBank.Modelos/ExtratorValorDeArgumentosURL.cs:14-22 | Fails with ArgumentoInvalido("url") iff the URL is null or empty. Otherwise it keeps the URL. The arguments are the suffix after the first `?`, or the whole URL when there is no `?`. |
| `SistemaAgencia.IndexOf` | ByteBank.Modelos/ExtratorValorDeArgumentosURL.cs:27 | A result ≥ 0 is an occurrence of the pattern with no earlier one. −1 means there is no occurrence at all. |
| `SistemaAgencia.IndexOfPrimeiraOcorrencia` | ByteBank.Modelos/ExtratorValorDeArgumentosURL.cs:27 | IndexOf is determined by its contract: the first occurrence is the answer. |
| `SistemaAgencia.IndexOfChar` | ByteBank.Modelos/ExtratorValorDeArgumentosURL.cs:21 | −1 iff the character is absent. Otherwise it is the index of its first occurrence. |
| `SistemaAgencia.LowerChar` | ByteBank.Modelos/ExtratorValorDeArgumentosURL.cs:25-26 | Maps `A`–`Z` to `a`–`z` and leaves every other character alone. It never yields an upper-case letter. |
| `SistemaAgencia.ToLower` | ByteBank.Modelos/ExtratorValorDeArgumentosURL.cs:25-26 | Lower-casing keeps the length and lower-cases each character in place. |
| `SistemaAgencia.ToLowerIdempotente` | ByteBank.Modelos/ExtratorValorDeArgumentosURL.cs:25-26 | Lower-casing twice is the same as lower-casing once. |
| `SistemaAgencia.Chave` | ByteBank.Modelos/ExtratorValorDeArgumentosURL.cs:25 | The key is the lower-cased name followed by `=`, one character longer than the name. |
| `SistemaAgencia.InicioDoValor` | ByteBank.Modelos/ExtratorValorDeArgumentosURL.cs:27 | The read start is never before the name's length. It is exactly the name's length or lies within the arguments. |
| `SistemaAgencia.InicioDoValorLocaliza` | ByteBank.Modelos/ExtratorValorDeArgumentosURL.cs:25-27 | When `name=` occurs case-insensitively, the read starts right after its first occurrence, within the arguments. Otherwise it starts at the name's length. |
| `SistemaAgencia.CorteNoEComercial` | ByteBank.Modelos/ExtratorValorDeArgumentosURL.cs:28-32 | The result is a prefix of the input with no `&`. It is the whole input, or it stops exactly before the first `&`. |
| `SistemaAgencia.ValorAPartirDeUnico` | ByteBank.Modelos/ExtratorValorDeArgumentosURL.cs:28-32 | At most one text runs from a given index up to the first `&` or the end. |
| `SistemaAgencia.ValorNoResto` | ByteBank.Modelos/ExtratorValorDeArgumentosURL.cs:28-32 | A value read from the start of the suffix at `inicio` is the value read from `inicio` in the whole arguments. |
| `SistemaAgencia.GetValor` | ByteBank.Modelos/ExtratorValorDeArgumentosURL.cs:23-34 | Succeeds iff the start index is within the arguments. Otherwise it fails with ForaDoIntervalo(start), as `Substring` throws. On success the value is a contiguous slice of the original-case arguments beginning at the start. It contains no `&` and ends at the first `&` or at the end. |
| `SistemaAgencia.GetValorEncontrado` | ByteBank.Modelos/ExtratorValorDeArgumentosURL.cs:25-27 | A name that occurs in any case is always found: GetValor succeeds. |
| `SistemaAgencia.GetValorIgnoraCaixa` | ByteBank.Modelos/ExtratorValorDeArgumentosURL.cs:25-27 | Looking up a name gives the same result as looking up its lower-case form. |
| `SistemaAgencia.GetValorExemplo` | ByteBank.Modelos/ExtratorValorDeArgumentosURL.cs:23-34 | On arguments `b=2&a=1`, looking up `B` yields `2`. |
| `SistemaAgencia.GetValorNomeAusente` | ByteBank.Modelos/ExtratorValorDeArgumentosURL.cs:27 | For an absent name, GetValor reads from index `len(name)`. It fails out of range when the name is longer than the arguments. |
| `SistemaAgencia.GetValorNomeAusenteExemplo` | ByteBank.Modelos/ExtratorValorDeArgumentosURL.cs:27 | On arguments `a=1`, looking up the absent `x` yields `=1`. |
| `SistemaAgencia.GetValorCorrigido` | ByteBank.Modelos/ExtratorValorDeArgumentosURL.cs:23-34 | None iff the name does not occur (case-insensitively). Otherwise it returns the value GetValor returns. |

## Findings

| source | as written | input that shows it | evidently intended | confidence | as-written member | corrected member |
|---|---|---|---|---|---|---|
| ByteBank.Modelos/ExtratorValorDeArgumentosURL.cs:27 | When `name=` does not occur, IndexOf's −1 is added to the key length, so the value is read from index `len(name)` | arguments `a=1`, name `x`: returns `=1`; a name longer than the arguments throws ArgumentOutOfRangeException | report that the name is absent | high; not executed | `SistemaAgencia.GetValorNomeAusenteExemplo` | `SistemaAgencia.GetValorCorrigido` |
| ByteBank.Modelos/ContaCorrente.cs:74 | The first check tests `numero` although its message and the doc-comment at line 70 concern `agencia`, so `agencia` is never validated | `new ContaCorrente(0, 1)` succeeds | reject `agencia <= 0` with ArgumentException for "agencia" | high; not executed | `Modelos.AgenciaNaoValidada` | `Modelos.ErroDeArgumentosCorrigido` |

## Left out

- The balance is a `real`, not an IEEE-754 `double`. Rounding is not modelled, and the exact deltas hold only in this abstraction.
- Counters and the account total are unbounded `nat`s. The 32-bit `int` overflow of `TotalDeContasCriadas` and of the counters is not modelled, because the code does not handle it.
- Static state is a `Registro` object passed to `Criar`, not process-wide. The source is single-threaded, so thread-safety of the counter is not modelled.
- Modelos.ContaCorrente.Criar: the check at ByteBank.Modelos/ContaCorrente.cs:79 repeats the one at line 74 and can never fire. The dead check lives in `ErroDeArgumentos`, which `Criar` calls, rather than in `Criar`'s own body. `Criar` keeps the as-written checks; the documented ones are `ErroDeArgumentosCorrigido`.
- Exception messages are not modelled. Only the parameter name of ArgumentException and the payloads (balance, amount, wrapped cause) are kept.
- `Titular` is a plain field of an empty `Cliente` class. Its auto-property setter is a field write with no method. Cliente.cs is not part of this model.
- Modelos.ContaCorrente.Transferir: `contaDestino` is a non-null account. The C# call with null would withdraw and then throw NullReferenceException, which is not modelled.
- Every account method requires `Valid()` (balance ≥ 0). `Criar` establishes it and every method preserves it, so no account reached through these operations violates it.
- Equals and CompareTo take `ContaCorrente?`. Null stands for the result of the C# cast `obj as ContaCorrente`, which is null for null and for every object that is not an account.
- `ToString` (ByteBank.Modelos/ContaCorrente.cs:158-161) is display formatting that depends on the culture, and is not modelled.
- Culture-sensitive `ToLower` and `IndexOf` are modelled as ASCII lower-casing and ordinal search. Lower-casing keeps the length.
- A null `paramName` in `GetValor` (a NullReferenceException in C#) is not modelled. Names are Dafny strings.
- ByteBank.SistemaAgencia/Program.cs is not part of this model. It holds console and file I/O, and parsing whose decimal separator depends on the culture.
