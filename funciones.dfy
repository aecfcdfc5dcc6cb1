/** Model of exercises/1-fundamentals/1.3-functions/functions.ts: typed
    arithmetic helpers, an optional parameter, a rest parameter folded with
    `reduce`, functions as values, the boolean overload of `convertir` and
    an arrow function with a default parameter. Numbers are integers here. */
module Funciones {
  import opened Resultados

  /** `a + b`; subtracting either operand gives back the other. */
  function Sumar(a: int, b: int): (r: int)
    ensures r - a == b && r - b == a
  {
    a + b
  }

  // ---------------------------------------------------------------------------
  // sumarTodos
  // ---------------------------------------------------------------------------

  /** The sum of a sequence, as mathematics defines it (reference definition). */
  function Total(xs: seq<int>): int
    decreases |xs|
  {
    if xs == [] then 0 else xs[0] + Total(xs[1..])
  }

  /** `xs.reduce((total, n) => total + n, total)`: a left fold of `Sumar`. */
  function Reducir(xs: seq<int>, total: int): (r: int)
    ensures r == total + Total(xs)
    decreases |xs|
  {
    if xs == [] then total else Reducir(xs[1..], Sumar(total, xs[0]))
  }

  /** The sum of the rest arguments; zero for none. */
  function SumarTodos(numeros: seq<int>): (r: int)
    ensures r == Total(numeros)
    ensures numeros == [] ==> r == 0
    ensures |numeros| == 1 ==> r == numeros[0]
  {
    Reducir(numeros, 0)
  }

  /** Splitting the arguments anywhere and adding the two partial sums gives
      the same total. */
  lemma {:induction false} SumarTodosConcatenacion(a: seq<int>, b: seq<int>)
    ensures SumarTodos(a + b) == SumarTodos(a) + SumarTodos(b)
    decreases |a|
  {
    if a == [] {
      assert a + b == b;
    } else {
      assert (a + b)[1..] == a[1..] + b;
      SumarTodosConcatenacion(a[1..], b);
    }
  }

  // ---------------------------------------------------------------------------
  // crearMensaje
  // ---------------------------------------------------------------------------

  /** The text with the signature on a new line after "- " when a non-empty
      signature is given; the text alone otherwise. */
  function CrearMensaje(texto: string, firma: Option<string>): (r: string)
    ensures |r| >= |texto| && r[..|texto|] == texto
    ensures Truthy(firma) ==> r[|texto|..] == "\n- " + firma.value
    ensures Truthy(firma) ==> r[|texto| + 3..] == firma.value
    ensures !Truthy(firma) ==> |r| == |texto|
  {
    if Truthy(firma) then texto + "\n- " + firma.value else texto
  }

  /** An empty signature is treated like a missing one, and two messages with
      the same text are equal only when their signatures are both effectively
      absent or equal. */
  lemma CrearMensajeFirma(texto: string, f: Option<string>, g: Option<string>)
    ensures CrearMensaje(texto, Some("")) == CrearMensaje(texto, None) == texto
    ensures Truthy(f) && Truthy(g) ==>
      (CrearMensaje(texto, f) == CrearMensaje(texto, g) <==> f == g)
    ensures Truthy(f) && !Truthy(g) ==> CrearMensaje(texto, f) != CrearMensaje(texto, g)
  {
  }

  // ---------------------------------------------------------------------------
  // calcular
  // ---------------------------------------------------------------------------

  type OperacionMatematica = (int, int) -> int

  function Suma(a: int, b: int): (r: int)
    ensures r - a == b && r - b == a
  {
    a + b
  }

  function Resta(a: int, b: int): (r: int)
    ensures r + b == a
  {
    a - b
  }

  function Multiplicacion(a: int, b: int): (r: int)
    ensures r == a * b
  {
    a * b
  }

  /** Applies the given operation to the two operands. */
  function Calcular(a: int, b: int, operacion: OperacionMatematica): (r: int)
    ensures r == operacion(a, b)
  {
    operacion(a, b)
  }

  /** With the three named operations, `calcular` adds, subtracts and
      multiplies; subtraction undoes addition, and addition and
      multiplication do not depend on operand order. */
  lemma CalcularOperaciones(a: int, b: int)
    ensures Calcular(a, b, Suma) == a + b
    ensures Calcular(a, b, Resta) == a - b
    ensures Calcular(a, b, Multiplicacion) == a * b
    ensures Calcular(Calcular(a, b, Suma), b, Resta) == a
    ensures Calcular(a, b, Suma) == Calcular(b, a, Suma)
    ensures Calcular(a, b, Multiplicacion) == Calcular(b, a, Multiplicacion)
  {
  }

  // ---------------------------------------------------------------------------
  // convertir (boolean overload)
  // ---------------------------------------------------------------------------

  /** `"verdadero"` for true, `"falso"` for false. */
  function Convertir(valor: bool): (r: string)
    ensures r == "verdadero" <==> valor
    ensures r == "falso" <==> !valor
  {
    if valor then "verdadero" else "falso"
  }

  /** Different booleans give different strings, so the value can be read back. */
  lemma ConvertirInyectiva(a: bool, b: bool)
    ensures Convertir(a) == Convertir(b) <==> a == b
  {
  }

  // ---------------------------------------------------------------------------
  // multiplicarNormal / multiplicarFlecha
  // ---------------------------------------------------------------------------

  function MultiplicarNormal(a: int, b: int): (r: int)
    ensures r == a * b
  {
    a * b
  }

  const MultiplicarFlecha: (int, int) -> int := (a: int, b: int) => a * b

  /** The function declaration and the arrow function compute the same product. */
  lemma MultiplicarEquivalentes(a: int, b: int)
    ensures MultiplicarNormal(a, b) == MultiplicarFlecha(a, b) == a * b
  {
  }

  // ---------------------------------------------------------------------------
  // generarSaludo
  // ---------------------------------------------------------------------------

  const Encabezado := "Estimado/a "
  const Cierre := ", un placer saludarle."

  /** A greeting that names `nombre`, preceded by `titulo` and a space when
      a non-empty title is given. */
  function GenerarSaludo(nombre: string, titulo: string := ""): (r: string)
    ensures titulo == "" ==> r == Encabezado + nombre + Cierre
    ensures |r| == |Encabezado| + (if titulo == "" then 0 else |titulo| + 1) + |nombre| + |Cierre|
    ensures r[..|Encabezado|] == Encabezado
    ensures r[|r| - |Cierre|..] == Cierre
    ensures titulo != "" ==>
      r[|Encabezado|..|Encabezado| + |titulo| + 1 + |nombre|] == titulo + " " + nombre
  {
    var tituloStr := if titulo != "" then titulo + " " else "";
    Encabezado + tituloStr + nombre + Cierre
  }
}
