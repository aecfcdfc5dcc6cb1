/** Model of exercises/1-fundamentals/1.2-classes/classes.ts: the product with
    an availability flag, the static adder, the account with a validating
    balance setter, the resizable rectangle and the audio player. */
module Clases {
  import opened Resultados
  import Saldos

  // ---------------------------------------------------------------------------
  // Producto
  // ---------------------------------------------------------------------------

  class Producto {
    var nombre: string
    var precio: real
    var disponible: bool

    /** A new product is available. */
    constructor (nombre: string, precio: real)
      ensures this.nombre == nombre && this.precio == precio && disponible
    {
      this.nombre := nombre;
      this.precio := precio;
      disponible := true;
    }

    /** Sets the flag to `estado`; name and price are untouched. */
    method CambiarDisponibilidad(estado: bool)
      modifies this`disponible
      ensures disponible == estado
    {
      disponible := estado;
    }
  }

  // ---------------------------------------------------------------------------
  // Calculadora
  // ---------------------------------------------------------------------------

  /** `ultimoResultado` is `real` because the source stores the circle area
      (π·r²) there; `Sumar`, like the other arithmetic helpers, is over `int`. */
  class Calculadora {
    var ultimoResultado: real

    constructor ()
      ensures ultimoResultado == 0.0
    {
      ultimoResultado := 0.0;
    }

    /** The static adder: undoing either operand gives back the other. */
    static function Sumar(a: int, b: int): (r: int)
      ensures r - a == b && r - b == a
    {
      a + b
    }
  }

  // ---------------------------------------------------------------------------
  // Cuenta
  // ---------------------------------------------------------------------------

  /** An account whose balance is read and written through a getter and a
      validating setter, besides `Depositar` and `Retirar`. The constructor does
      not check the initial balance, so a negative one is possible; every
      other operation keeps a non-negative balance non-negative. */
  class Cuenta {
    var saldo: int

    constructor (saldoInicial: int := 0)
      ensures saldo == saldoInicial
    {
      saldo := saldoInicial;
    }

    /** The `saldo` getter. */
    method GetSaldo() returns (s: int)
      ensures s == saldo
    {
      s := saldo;
    }

    /** The `saldo` setter: a negative value throws and leaves the balance
        alone; any other value is stored as given. */
    method SetSaldo(nuevoSaldo: int) returns (r: Result<()>)
      modifies this`saldo
      ensures nuevoSaldo < 0 ==> r == Error(Saldos.SaldoNegativo) && saldo == old(saldo)
      ensures nuevoSaldo >= 0 ==> r == Ok(()) && saldo == nuevoSaldo
      ensures saldo == Saldos.Paso(old(saldo), Saldos.Asignacion(nuevoSaldo))
      ensures old(saldo) >= 0 ==> saldo >= 0
    {
      if nuevoSaldo < 0 {
        return Error(Saldos.SaldoNegativo);
      }
      saldo := nuevoSaldo;
      r := Ok(());
    }

    method Depositar(monto: int) returns (r: Result<()>)
      modifies this`saldo
      ensures monto <= 0 ==> r == Error(Saldos.MontoNoPositivo) && saldo == old(saldo)
      ensures monto > 0 ==> r == Ok(()) && saldo == old(saldo) + monto
      ensures saldo == Saldos.Paso(old(saldo), Saldos.Deposito(monto))
      ensures old(saldo) >= 0 ==> saldo >= 0
    {
      if monto <= 0 {
        return Error(Saldos.MontoNoPositivo);
      }
      saldo := saldo + monto;
      r := Ok(());
    }

    method Retirar(monto: int) returns (r: Result<bool>)
      modifies this`saldo
      ensures monto <= 0 ==> r == Error(Saldos.MontoNoPositivo) && saldo == old(saldo)
      ensures 0 < monto && monto > old(saldo) ==> r == Ok(false) && saldo == old(saldo)
      ensures 0 < monto <= old(saldo) ==> r == Ok(true) && saldo == old(saldo) - monto
      ensures match Saldos.Retirar(old(saldo), monto)
              case Ok(x) => r == Ok(x.exito) && saldo == x.saldo
              case Error(m) => r == Error(m) && saldo == old(saldo)
      ensures saldo == Saldos.Paso(old(saldo), Saldos.Retiro(monto))
      ensures old(saldo) >= 0 ==> saldo >= 0
    {
      if monto <= 0 {
        return Error(Saldos.MontoNoPositivo);
      }
      if monto > saldo {
        return Ok(false);
      }
      saldo := saldo - monto;
      r := Ok(true);
    }
  }

  // ---------------------------------------------------------------------------
  // Rectangulo
  // ---------------------------------------------------------------------------

  /** The rectangle of the abstract-shape example (`Forma` contributes only
      the colour). */
  class Rectangulo {
    const color: string
    var ancho: real
    var alto: real

    constructor (color: string, ancho: real, alto: real)
      ensures this.color == color && this.ancho == ancho && this.alto == alto
    {
      this.color := color;
      this.ancho := ancho;
      this.alto := alto;
    }

    function CalcularArea(): (r: real)
      reads this
      ensures r == ancho * alto
    {
      ancho * alto
    }

    /** Scales both sides by `factor`, so the area scales by its square. */
    method Redimensionar(factor: real)
      modifies this`ancho, this`alto
      ensures ancho == old(ancho) * factor && alto == old(alto) * factor
      ensures CalcularArea() == old(CalcularArea()) * (factor * factor)
    {
      ancho := ancho * factor;
      alto := alto * factor;
    }
  }

  // ---------------------------------------------------------------------------
  // ReproductorAudio
  // ---------------------------------------------------------------------------

  /** A player whose only state is whether it is playing; it starts stopped. */
  class ReproductorAudio {
    var archivo: string
    var duracion: int
    var enReproduccion: bool

    constructor (archivo: string, duracion: int)
      ensures this.archivo == archivo && this.duracion == duracion
      ensures !EstaReproduciendo()
    {
      this.archivo := archivo;
      this.duracion := duracion;
      enReproduccion := false;
    }

    method Reproducir()
      modifies this`enReproduccion
      ensures EstaReproduciendo()
    {
      enReproduccion := true;
    }

    method Pausar()
      modifies this`enReproduccion
      ensures !EstaReproduciendo()
    {
      enReproduccion := false;
    }

    method Detener()
      modifies this`enReproduccion
      ensures !EstaReproduciendo()
    {
      enReproduccion := false;
    }

    predicate EstaReproduciendo()
      reads this
      ensures EstaReproduciendo() <==> enReproduccion
    {
      enReproduccion
    }
  }
}
