/** The balance rules that the two account classes, `CuentaBancaria`
    (modifiers.ts) and `Cuenta` (classes.ts), implement identically:
    guards, effect on the balance and what each call reports.
    The classes' methods are proved against these functions. */
module Saldos {
  import opened Resultados

  const MontoNoPositivo := "El monto debe ser positivo"
  const SaldoNegativo := "El saldo no puede ser negativo"

  /** Balance after `depositar(monto)`, or the error it throws. */
  function Depositar(saldo: int, monto: int): (r: Result<int>)
    ensures r.Error? <==> monto <= 0
    ensures r.Error? ==> r.message == MontoNoPositivo
    ensures r.Ok? ==> r.value - saldo == monto && r.value > saldo
  {
    if monto <= 0 then Error(MontoNoPositivo) else Ok(saldo + monto)
  }

  /** What `retirar` returns together with the balance it leaves. */
  datatype Retirada = Retirada(exito: bool, saldo: int)

  /** Outcome of `retirar(monto)`: the error it throws, or whether it
      returned true and the resulting balance. */
  function Retirar(saldo: int, monto: int): (r: Result<Retirada>)
    ensures r.Error? <==> monto <= 0
    ensures r.Error? ==> r.message == MontoNoPositivo
    ensures r.Ok? ==> (r.value.exito <==> monto <= saldo)
    ensures r.Ok? && !r.value.exito ==> r.value.saldo == saldo
    ensures r.Ok? && r.value.exito ==> saldo - r.value.saldo == monto && 0 <= r.value.saldo < saldo
  {
    if monto <= 0 then Error(MontoNoPositivo)
    else if monto > saldo then Ok(Retirada(false, saldo))
    else Ok(Retirada(true, saldo - monto))
  }

  /** Balance after the `saldo` setter of `Cuenta` is given `nuevo`, or its error. */
  function Asignar(saldo: int, nuevo: int): (r: Result<int>)
    ensures r.Error? <==> nuevo < 0
    ensures r.Error? ==> r.message == SaldoNegativo
    ensures r.Ok? ==> r.value == nuevo && r.value >= 0
  {
    if nuevo < 0 then Error(SaldoNegativo) else Ok(nuevo)
  }

  /** One call on an account. */
  datatype Operacion = Deposito(monto: int) | Retiro(monto: int) | Asignacion(nuevo: int)

  /** Balance after one call; a call that throws leaves the balance as it was,
      because every guard runs before the balance is written. */
  function Paso(saldo: int, op: Operacion): int {
    match op
    case Deposito(m) => (match Depositar(saldo, m) case Ok(s) => s case Error(_) => saldo)
    case Retiro(m) => (match Retirar(saldo, m) case Ok(x) => x.saldo case Error(_) => saldo)
    case Asignacion(n) => (match Asignar(saldo, n) case Ok(s) => s case Error(_) => saldo)
  }

  /** Balance after a sequence of calls, each one's exception caught by the caller. */
  function Ejecutar(saldo: int, ops: seq<Operacion>): int
    decreases |ops|
  {
    if ops == [] then saldo else Ejecutar(Paso(saldo, ops[0]), ops[1..])
  }

  /** Running calls one after another is running their concatenation. */
  lemma {:induction false} EjecutarConcatenacion(saldo: int, a: seq<Operacion>, b: seq<Operacion>)
    ensures Ejecutar(saldo, a + b) == Ejecutar(Ejecutar(saldo, a), b)
    decreases |a|
  {
    if a == [] {
      assert a + b == b;
    } else {
      assert (a + b)[0] == a[0];
      assert (a + b)[1..] == a[1..] + b;
      EjecutarConcatenacion(Paso(saldo, a[0]), a[1..], b);
    }
  }

  /** A non-negative balance stays non-negative across any sequence of
      deposits, withdrawals and assignments. */
  lemma {:induction false} SaldoNoNegativo(saldo: int, ops: seq<Operacion>)
    requires saldo >= 0
    ensures Ejecutar(saldo, ops) >= 0
    decreases |ops|
  {
    if ops != [] {
      SaldoNoNegativo(Paso(saldo, ops[0]), ops[1..]);
    }
  }

  /** Total deposited by the calls that succeed. */
  function Depositado(saldo: int, ops: seq<Operacion>): int
    decreases |ops|
  {
    if ops == [] then 0
    else
      (match ops[0] case Deposito(m) => if m > 0 then m else 0 case _ => 0)
      + Depositado(Paso(saldo, ops[0]), ops[1..])
  }

  /** Total withdrawn by the calls that succeed. */
  function Retirado(saldo: int, ops: seq<Operacion>): int
    decreases |ops|
  {
    if ops == [] then 0
    else
      (match ops[0] case Retiro(m) => if 0 < m <= saldo then m else 0 case _ => 0)
      + Retirado(Paso(saldo, ops[0]), ops[1..])
  }

  /** Without the setter, money is conserved: the final balance is the initial
      one plus what was deposited minus what was withdrawn, and no more can be
      withdrawn than was there plus what came in. */
  lemma {:induction false} Conservacion(saldo: int, ops: seq<Operacion>)
    requires forall i | 0 <= i < |ops| :: !ops[i].Asignacion?
    ensures Ejecutar(saldo, ops) == saldo + Depositado(saldo, ops) - Retirado(saldo, ops)
    ensures saldo >= 0 ==> Retirado(saldo, ops) <= saldo + Depositado(saldo, ops)
    decreases |ops|
  {
    if ops != [] {
      Conservacion(Paso(saldo, ops[0]), ops[1..]);
      if saldo >= 0 {
        SaldoNoNegativo(saldo, ops);
      }
    }
  }
}
