/** Model of exercises/1-fundamentals/1.2-classes/modifiers.ts: the bank
    account with a private balance, the product with a validated supplier and
    an availability flag, and the employee/manager salary arithmetic. */
module Modificadores {
  import opened Resultados
  import Saldos

  // ---------------------------------------------------------------------------
  // CuentaBancaria
  // ---------------------------------------------------------------------------

  /** A bank account whose balance changes only through `Depositar` and
      `Retirar`. The account number is a constructor argument here; the
      original draws it at random. */
  class CuentaBancaria {
    const titular: string
    var saldo: int
    const numeroCuenta: string

    constructor (titular: string, saldoInicial: int, numeroCuenta: string)
      ensures this.titular == titular && saldo == saldoInicial
      ensures this.numeroCuenta == numeroCuenta
    {
      this.titular := titular;
      saldo := saldoInicial;
      this.numeroCuenta := numeroCuenta;
    }

    method ObtenerTitular() returns (t: string)
      ensures t == titular
    {
      t := titular;
    }

    method ObtenerSaldo() returns (s: int)
      ensures s == saldo
    {
      s := saldo;
    }

    /** `"****"` followed by the last four characters of the account number
        (all of it when it is shorter, as `slice(-4)` does). */
    function ObtenerNumeroCuenta(): (r: string)
      ensures |r| == 4 + (if |numeroCuenta| < 4 then |numeroCuenta| else 4)
      ensures r[..4] == "****"
      ensures r[4..] == numeroCuenta[|numeroCuenta| - (|r| - 4)..]
    {
      "****" + numeroCuenta[(if |numeroCuenta| < 4 then 0 else |numeroCuenta| - 4)..]
    }

    /** Throws for a non-positive amount and leaves the balance alone;
        otherwise adds the amount. */
    method Depositar(monto: int) returns (r: Result<()>)
      modifies this`saldo
      ensures monto <= 0 ==> r == Error(Saldos.MontoNoPositivo) && saldo == old(saldo)
      ensures monto > 0 ==> r == Ok(()) && saldo == old(saldo) + monto
      ensures match Saldos.Depositar(old(saldo), monto)
              case Ok(s) => r.Ok? && saldo == s
              case Error(m) => r == Error(m) && saldo == old(saldo)
      ensures saldo == Saldos.Paso(old(saldo), Saldos.Deposito(monto))
    {
      if monto <= 0 {
        return Error(Saldos.MontoNoPositivo);
      }
      saldo := saldo + monto;
      r := Ok(());
    }

    /** Throws for a non-positive amount; returns false without touching the
        balance when the amount exceeds it; otherwise subtracts it and returns
        true. */
    method Retirar(monto: int) returns (r: Result<bool>)
      modifies this`saldo
      ensures monto <= 0 ==> r == Error(Saldos.MontoNoPositivo) && saldo == old(saldo)
      ensures 0 < monto && monto > old(saldo) ==> r == Ok(false) && saldo == old(saldo)
      ensures 0 < monto <= old(saldo) ==> r == Ok(true) && saldo == old(saldo) - monto
      ensures match Saldos.Retirar(old(saldo), monto)
              case Ok(x) => r == Ok(x.exito) && saldo == x.saldo
              case Error(m) => r == Error(m) && saldo == old(saldo)
      ensures saldo == Saldos.Paso(old(saldo), Saldos.Retiro(monto))
      ensures old(saldo) >= 0 ==> saldo >= 0
    {
      if monto <= 0 {
        return Error(Saldos.MontoNoPositivo);
      }
      if monto > saldo {
        return Ok(false);
      }
      saldo := saldo - monto;
      r := Ok(true);
    }
  }

  // ---------------------------------------------------------------------------
  // String.prototype.trim, as the supplier setter uses it
  // ---------------------------------------------------------------------------

  /** The characters `trim` removes: ECMAScript WhiteSpace (tab, vertical tab,
      form feed, space, no-break space, byte-order mark and the Unicode space
      separators) and LineTerminator (line feed, carriage return, line and
      paragraph separators). */
  predicate EsEspacio(c: char) {
    c in {'\t', '\n', '\U{000B}', '\U{000C}', '\r', ' ', '\U{00A0}', '\U{1680}',
          '\U{2028}', '\U{2029}', '\U{202F}', '\U{205F}', '\U{3000}', '\U{FEFF}'}
    || ('\U{2000}' <= c <= '\U{200A}')
  }

  /** Every character of `s` is one that `trim` removes. */
  predicate EsBlanco(s: string) {
    forall i | 0 <= i < |s| :: EsEspacio(s[i])
  }

  /** `s` without its leading white space. */
  function RecortarInicio(s: string): (r: string)
    ensures |r| <= |s| && r == s[|s| - |r|..]
    ensures forall i | 0 <= i < |s| - |r| :: EsEspacio(s[i])
    ensures r == [] || !EsEspacio(r[0])
  {
    if s != [] && EsEspacio(s[0]) then RecortarInicio(s[1..]) else s
  }

  /** `s` without its trailing white space. */
  function RecortarFin(s: string): (r: string)
    ensures |r| <= |s| && r == s[..|r|]
    ensures forall i | |r| <= i < |s| :: EsEspacio(s[i])
    ensures r == [] || !EsEspacio(r[|r| - 1])
  {
    if s != [] && EsEspacio(s[|s| - 1]) then RecortarFin(s[..|s| - 1]) else s
  }

  /** `s.trim()`: empty exactly when `s` is all white space, and otherwise
      starting and ending with a character that is not. */
  function Recortar(s: string): (r: string)
    ensures r == [] <==> EsBlanco(s)
    ensures r != [] ==> !EsEspacio(r[0]) && !EsEspacio(r[|r| - 1])
  {
    RecortarFin(RecortarInicio(s))
  }

  /** Trimming twice is trimming once. */
  lemma RecortarIdempotente(s: string)
    ensures Recortar(Recortar(s)) == Recortar(s)
  {
    var r := Recortar(s);
    if r != [] {
      assert RecortarInicio(r) == r;
      assert RecortarFin(r) == r;
    }
  }

  // ---------------------------------------------------------------------------
  // Producto
  // ---------------------------------------------------------------------------

  const ProveedorVacio := "El proveedor no puede estar vacío"

  /** A product with a read-only id, a private cost, a validated supplier and an
      availability flag driven by sales and restocking. */
  class Producto {
    const id: string
    var nombre: string
    var precio: real
    const costo: real
    var proveedor: string
    var disponible: bool

    constructor (id: string, nombre: string, precio: real, costo: real, proveedor: string)
      ensures this.id == id && this.nombre == nombre && this.precio == precio
      ensures this.costo == costo && this.proveedor == proveedor
      ensures disponible
    {
      this.id := id;
      this.nombre := nombre;
      this.precio := precio;
      this.costo := costo;
      this.proveedor := proveedor;
      disponible := true;
    }

    /** The `proveedor` setter: a value that trims to nothing is refused and
        the old supplier kept; any other value is stored as given, untrimmed. */
    method SetProveedor(nuevoProveedor: string) returns (r: Result<()>)
      modifies this`proveedor
      ensures r.Error? <==> EsBlanco(nuevoProveedor)
      ensures r.Error? ==> r.message == ProveedorVacio && proveedor == old(proveedor)
      ensures r.Ok? ==> proveedor == nuevoProveedor
    {
      if Recortar(nuevoProveedor) == "" {
        return Error(ProveedorVacio);
      }
      proveedor := nuevoProveedor;
      r := Ok(());
    }

    /** The product is available exactly when the given quantity is positive. */
    method ActualizarInventario(cantidad: int)
      modifies this`disponible
      ensures disponible <==> cantidad > 0
    {
      disponible := cantidad > 0;
    }

    /** Passes the negated quantity on, so a sale of a positive quantity marks
        the product unavailable and only a negative "sale" marks it available. */
    method Vender(cantidad: int)
      modifies this`disponible
      ensures disponible <==> cantidad < 0
    {
      ActualizarInventario(-cantidad);
    }

    method Reabastecer(cantidad: int)
      modifies this`disponible
      ensures disponible <==> cantidad > 0
    {
      ActualizarInventario(cantidad);
    }
  }

  // ---------------------------------------------------------------------------
  // Empleado / Gerente
  // ---------------------------------------------------------------------------

  datatype Empleado = Empleado(id: int, nombre: string, salario: int)

  /** A manager is an employee with a department and a yearly bonus. */
  datatype Gerente = Gerente(base: Empleado, departamento: string, bonus: int)

  /** Twelve monthly salaries. */
  function CalcularSalarioAnual(e: Empleado): (r: int)
    ensures r % 12 == 0 && r / 12 == e.salario
  {
    e.salario * 12
  }

  /** The yearly base salary plus the bonus. */
  function CalcularSalarioTotal(g: Gerente): (r: int)
    ensures (r - g.bonus) % 12 == 0 && (r - g.bonus) / 12 == g.base.salario
  {
    CalcularSalarioAnual(g.base) + g.bonus
  }
}
