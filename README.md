# Verified model of the TypeScript fundamentals exercises

This project models, in Dafny, the executable logic of the introductory
TypeScript curriculum: the classes and functions of the "1-fundamentals"
exercises, and proves what each one guarantees. The core is:

- two bank-account state machines, `CuentaBancaria` (modifiers.ts) and
  `Cuenta` (classes.ts). Each has a private balance changed only by validated
  deposits and withdrawals, and `Cuenta` also has a validating setter;
- small classes whose methods update fields in place: the two `Producto`
  classes, `Rectangulo`, `ReproductorAudio` and `Estudiante`;
- the append-only generic list `ListaGenerica<T>` and the generic helpers;
- pure string and arithmetic helpers (functions.ts and
  1.1-introduction/start.ts).

One module per source file: `Modificadores`, `Clases`, `Genericos`,
`Funciones`, `Estudiantes` and `Introduccion`. Two shared modules sit beside
them. `Resultados` holds `Option` (a value that may be `undefined`) and
`Result` (a call that returns, or throws an `Error` with a message).
`Saldos` holds the balance rules that both account classes implement, as
functions. The account methods are proved against those functions, and the
lemmas about whole sequences of calls are proved over them.

Modelling choices:
- Classes stay classes, with fields and `modifies` frames.
- A `throw` becomes `Error(message)` carrying the source's message string.
  Because every guard runs before any field is written, a throwing call
  leaves the state unchanged.
- Amounts, quantities and salaries are `int`. Prices, rectangle sides and
  `calculateTotal` are `real` (exact arithmetic).
- The random account number of `CuentaBancaria` becomes a constructor
  argument.
- JavaScript truthiness of an optional string (`if (firma)`,
  `includeMiddle && middleName`) is `Resultados.Truthy`: a string that is
  present and non-empty. The title of `generarSaludo` always has a value
  (its default is `''`), so `titulo ? … : ''` is the plain test
  `titulo != ""`.

## Model

| member | source | states |
|---|---|---|
| `Saldos.Depositar` | exercises/1-fundamentals/1.2-classes/modifiers.ts:81-86 | a deposit throws "El monto debe ser positivo" exactly when the amount is not positive; otherwise the balance grows by exactly the amount |
| `Saldos.Retirar` | exercises/1-fundamentals/1.2-classes/modifiers.ts:89-100 | a withdrawal throws exactly for a non-positive amount; otherwise it succeeds exactly when the amount is at most the balance; on failure the balance is unchanged, on success it drops by exactly the amount and stays non-negative |
| `Saldos.Asignar` | exercises/1-fundamentals/1.2-classes/classes.ts:196-202 | the setter throws "El saldo no puede ser negativo" exactly for a negative value; otherwise it stores exactly the given value, which is non-negative |
| `Saldos.EjecutarConcatenacion` | exercises/1-fundamentals/1.2-classes/modifiers.ts:81-100 | running two sequences of account calls one after the other equals running their concatenation |
| `Saldos.SaldoNoNegativo` | exercises/1-fundamentals/1.2-classes/classes.ts:196-221 | starting from a non-negative balance, any sequence of deposits, withdrawals and setter calls leaves it non-negative |
| `Saldos.Conservacion` | exercises/1-fundamentals/1.2-classes/modifiers.ts:81-100 | without the setter, final balance = initial + successful deposits − successful withdrawals, and, from a non-negative initial balance, no more is withdrawn than the initial balance plus deposits |
| `Modificadores.CuentaBancaria.constructor` | exercises/1-fundamentals/1.2-classes/modifiers.ts:59-64 | holder, initial balance and account number are stored as given |
| `Modificadores.CuentaBancaria.ObtenerTitular` | exercises/1-fundamentals/1.2-classes/modifiers.ts:67-69 | returns the holder |
| `Modificadores.CuentaBancaria.ObtenerSaldo` | exercises/1-fundamentals/1.2-classes/modifiers.ts:71-73 | returns the current balance |
| `Modificadores.CuentaBancaria.ObtenerNumeroCuenta` | exercises/1-fundamentals/1.2-classes/modifiers.ts:75-78 | the result is "****" followed by the last four characters of the account number, or all of it when it is shorter |
| `Modificadores.CuentaBancaria.Depositar` | exercises/1-fundamentals/1.2-classes/modifiers.ts:81-87 | a non-positive amount throws and leaves the balance unchanged; a positive amount adds exactly that amount; the result agrees with `Saldos.Depositar` |
| `Modificadores.CuentaBancaria.Retirar` | exercises/1-fundamentals/1.2-classes/modifiers.ts:89-100 | a non-positive amount throws; an amount above the balance returns false with no change; otherwise returns true and subtracts the amount; a non-negative balance stays non-negative |
| `Modificadores.RecortarInicio` | exercises/1-fundamentals/1.2-classes/modifiers.ts:286 | the result is a suffix of the input; everything dropped is white space; the result is empty or does not start with white space |
| `Modificadores.RecortarFin` | exercises/1-fundamentals/1.2-classes/modifiers.ts:286 | the result is a prefix of the input; everything dropped is white space; the result is empty or does not end with white space |
| `Modificadores.Recortar` | exercises/1-fundamentals/1.2-classes/modifiers.ts:286 | `trim()` is empty exactly when every character is white space; otherwise it starts and ends with a character that is not |
| `Modificadores.RecortarIdempotente` | exercises/1-fundamentals/1.2-classes/modifiers.ts:286 | trimming twice equals trimming once |
| `Modificadores.Producto.constructor` | exercises/1-fundamentals/1.2-classes/modifiers.ts:267-274 | fields are stored as given and the product starts available |
| `Modificadores.Producto.SetProveedor` | exercises/1-fundamentals/1.2-classes/modifiers.ts:285-290 | the setter throws exactly when the new supplier is all white space, and then keeps the old one; otherwise it stores the value as given; nothing else changes |
| `Modificadores.Producto.ActualizarInventario` | exercises/1-fundamentals/1.2-classes/modifiers.ts:309-312 | availability becomes "quantity is positive"; nothing else changes |
| `Modificadores.Producto.Vender` | exercises/1-fundamentals/1.2-classes/modifiers.ts:315-318 | after selling `n`, the product is available exactly when `n` is negative |
| `Modificadores.Producto.Reabastecer` | exercises/1-fundamentals/1.2-classes/modifiers.ts:320-323 | after restocking `n`, the product is available exactly when `n` is positive |
| `Modificadores.CalcularSalarioAnual` | exercises/1-fundamentals/1.2-classes/modifiers.ts:155-157 | the yearly salary is a multiple of 12 whose twelfth is the monthly salary |
| `Modificadores.CalcularSalarioTotal` | exercises/1-fundamentals/1.2-classes/modifiers.ts:176-180 | the manager's total minus the bonus is twelve monthly salaries |
| `Clases.Producto.constructor` | exercises/1-fundamentals/1.2-classes/classes.ts:26-30 | name and price are stored as given; a new product is available |
| `Clases.Producto.CambiarDisponibilidad` | exercises/1-fundamentals/1.2-classes/classes.ts:37-39 | availability becomes the argument; name and price are untouched |
| `Clases.Calculadora.constructor` | exercises/1-fundamentals/1.2-classes/classes.ts:152 | the last result starts at 0 |
| `Clases.Calculadora.Sumar` | exercises/1-fundamentals/1.2-classes/classes.ts:155-157 | subtracting either operand from the sum gives the other |
| `Clases.Cuenta.constructor` | exercises/1-fundamentals/1.2-classes/classes.ts:185-187 | the initial balance is stored unchecked; it defaults to 0 |
| `Clases.Cuenta.GetSaldo` | exercises/1-fundamentals/1.2-classes/classes.ts:190-193 | the getter returns the balance |
| `Clases.Cuenta.SetSaldo` | exercises/1-fundamentals/1.2-classes/classes.ts:196-202 | a negative value throws and leaves the balance unchanged; a non-negative value is stored exactly |
| `Clases.Cuenta.Depositar` | exercises/1-fundamentals/1.2-classes/classes.ts:205-210 | a non-positive amount throws with no change; otherwise the amount is added; a non-negative balance stays non-negative |
| `Clases.Cuenta.Retirar` | exercises/1-fundamentals/1.2-classes/classes.ts:212-221 | throws for a non-positive amount; returns false with no change when the amount exceeds the balance; otherwise returns true and subtracts it |
| `Clases.Rectangulo.constructor` | exercises/1-fundamentals/1.2-classes/classes.ts:265-271 | colour and sides are stored as given |
| `Clases.Rectangulo.CalcularArea` | exercises/1-fundamentals/1.2-classes/classes.ts:274-276 | the area is width times height; `Redimensionar` states how it scales |
| `Clases.Rectangulo.Redimensionar` | exercises/1-fundamentals/1.2-classes/classes.ts:274-281 | both sides are multiplied by the factor, so the new area is the old area times the factor squared |
| `Clases.ReproductorAudio.constructor` | exercises/1-fundamentals/1.2-classes/classes.ts:333-338 | file and duration are stored as given; the player starts stopped |
| `Clases.ReproductorAudio.EstaReproduciendo` | exercises/1-fundamentals/1.2-classes/classes.ts:356-358 | reports the playing flag; `Reproducir`, `Pausar` and `Detener` state what it reports after each call |
| `Clases.ReproductorAudio.Reproducir` | exercises/1-fundamentals/1.2-classes/classes.ts:340-343 | afterwards `EstaReproduciendo()` is true |
| `Clases.ReproductorAudio.Pausar` | exercises/1-fundamentals/1.2-classes/classes.ts:345-348 | afterwards `EstaReproduciendo()` is false |
| `Clases.ReproductorAudio.Detener` | exercises/1-fundamentals/1.2-classes/classes.ts:350-358 | afterwards `EstaReproduciendo()` is false |
| `Genericos.PrimerElemento` | exercises/1-fundamentals/1.3-functions/generics.ts:26-28 | undefined exactly for an empty array, otherwise the element at index 0; `PrimerEsObtenerCero` ties it to the list's bounds-checked read |
| `Genericos.PrimerElementoConcatenacion` | exercises/1-fundamentals/1.3-functions/generics.ts:26-28 | a property of the model's sequences, not one generics.ts states (it never concatenates): the first element of a concatenation is that of its first part, or of the second part when the first is empty (none for two empty parts) |
| `Genericos.PrimerEsObtenerCero` | exercises/1-fundamentals/1.3-functions/generics.ts:26-28 | `primerElemento` of a list's elements equals the list's bounds-checked read at index 0, so both give undefined exactly for an empty list |
| `Genericos.Combinar` | exercises/1-fundamentals/1.3-functions/generics.ts:50-52 | the pair holds the first argument first and the second argument second; `CombinarInyectiva` shows it determines both |
| `Genericos.CombinarInyectiva` | exercises/1-fundamentals/1.3-functions/generics.ts:50-52 | two results of `combinar` are equal exactly when their arguments are equal position by position, so each argument can be read back from its position |
| `Genericos.ObtenerLongitud` | exercises/1-fundamentals/1.3-functions/generics.ts:71-73 | the result is the number of elements (characters of a string) of the argument |
| `Genericos.ObtenerLongitudConcatenacion` | exercises/1-fundamentals/1.3-functions/generics.ts:71-73 | a property of the model's sequences, not one generics.ts states: the length of a concatenation is the sum of the two lengths |
| `Genericos.Filtro` | exercises/1-fundamentals/1.3-functions/generics.ts:152-154 | `filter` returns no more elements than its input, and every element it returns satisfies the predicate |
| `Genericos.FiltroConcatenacion` | exercises/1-fundamentals/1.3-functions/generics.ts:152-154 | filtering a concatenation is the concatenation of the filtered parts, so the input order is kept |
| `Genericos.FiltroMultiplicidad` | exercises/1-fundamentals/1.3-functions/generics.ts:152-154 | each element satisfying the predicate is kept as often as it occurs; every other element is dropped |
| `Genericos.FiltroTodos` | exercises/1-fundamentals/1.3-functions/generics.ts:152-154 | when every element passes, the filter returns the input unchanged |
| `Genericos.ListaGenerica.constructor` | exercises/1-fundamentals/1.3-functions/generics.ts:135 | a new list is empty |
| `Genericos.ListaGenerica.Agregar` | exercises/1-fundamentals/1.3-functions/generics.ts:137-139 | appends the element at the end; the length grows by one; afterwards a read at the old length gives the new element, and a read at any other index gives what it gave before |
| `Genericos.ListaGenerica.ObtenerElemento` | exercises/1-fundamentals/1.3-functions/generics.ts:141-146 | a value exactly for 0 ≤ index < `Longitud()`, holding the stored element there, otherwise undefined; `Agregar`'s read-back ensures and `ObtenerDeterminaContenido` tie it to the contents |
| `Genericos.ListaGenerica.Longitud` | exercises/1-fundamentals/1.3-functions/generics.ts:148-150 | the number of stored elements; `Agregar` states that it grows by one per append |
| `Genericos.ObtenerDeterminaContenido` | exercises/1-fundamentals/1.3-functions/generics.ts:141-150 | two lists whose `obtenerElemento` answers agree at every index hold the same elements: the bounds-checked reads determine both the length and the contents |
| `Genericos.ListaGenerica.Filtrar` | exercises/1-fundamentals/1.3-functions/generics.ts:152-154 | reads the list without changing it; every returned element satisfies the condition; no more are returned than are stored |
| `Genericos.FiltrarTrasAgregar` | exercises/1-fundamentals/1.3-functions/generics.ts:137-154 | filtering after an append is the earlier filter result, plus the new element when it passes |
| `Genericos.Fusionar` | exercises/1-fundamentals/1.3-functions/generics.ts:225 | in the object spread, each field present in the partial record wins and every other field comes from the original |
| `Genericos.FusionarComponer` | exercises/1-fundamentals/1.3-functions/generics.ts:225 | two spreads equal one spread of the combined update; applying an update twice equals applying it once; the empty update changes nothing |
| `Genericos.ActualizarUsuario` | exercises/1-fundamentals/1.3-functions/generics.ts:215-226 | the id is the argument unless the update overrides it; each field present in the update gives its value; each absent field keeps the stand-in original's value; an empty update returns the original |
| `Funciones.Sumar` | exercises/1-fundamentals/1.3-functions/functions.ts:21-23 | subtracting either operand from the sum gives the other |
| `Funciones.Reducir` | exercises/1-fundamentals/1.3-functions/functions.ts:83 | the left fold of `+` from an initial total is the initial total plus the sum of the elements |
| `Funciones.SumarTodos` | exercises/1-fundamentals/1.3-functions/functions.ts:82-84 | `sumarTodos` is the sum of its arguments: 0 for none, the element itself for one |
| `Funciones.SumarTodosConcatenacion` | exercises/1-fundamentals/1.3-functions/functions.ts:82-84 | summing a concatenation equals adding the sums of the two parts |
| `Funciones.CrearMensaje` | exercises/1-fundamentals/1.3-functions/functions.ts:52-57 | the message always starts with the text; with a non-empty signature the rest is a newline and "- " followed by the signature, which can be read back from position |text|+3; otherwise nothing follows the text |
| `Funciones.CrearMensajeFirma` | exercises/1-fundamentals/1.3-functions/functions.ts:52-57 | an empty signature gives the same message as no signature; two non-empty signatures give equal messages exactly when they are equal; a signed message never equals an unsigned one |
| `Funciones.Suma` | exercises/1-fundamentals/1.3-functions/functions.ts:115 | subtracting either operand from the result gives the other |
| `Funciones.Resta` | exercises/1-fundamentals/1.3-functions/functions.ts:116 | adding the second operand back gives the first |
| `Funciones.Multiplicacion` | exercises/1-fundamentals/1.3-functions/functions.ts:117 | the product of the operands |
| `Funciones.Calcular` | exercises/1-fundamentals/1.3-functions/functions.ts:121-123 | applies the given operation to the operands in order; `CalcularOperaciones` states the result for the three named operations |
| `Funciones.CalcularOperaciones` | exercises/1-fundamentals/1.3-functions/functions.ts:115-123 | `calcular` with `suma`, `resta` and `multiplicacion` gives a+b, a−b and a·b; subtraction undoes addition; addition and multiplication commute |
| `Funciones.Convertir` | exercises/1-fundamentals/1.3-functions/functions.ts:147 | "verdadero" exactly for true and "falso" exactly for false; `ConvertirInyectiva` shows the string determines the value |
| `Funciones.ConvertirInyectiva` | exercises/1-fundamentals/1.3-functions/functions.ts:147 | `convertir` of two booleans gives the same string exactly when they are equal, so the string determines the boolean |
| `Funciones.MultiplicarNormal` | exercises/1-fundamentals/1.3-functions/functions.ts:161-163 | the product of the operands; the arrow form `MultiplicarFlecha` is a constant, and `MultiplicarEquivalentes` shows the two agree |
| `Funciones.MultiplicarEquivalentes` | exercises/1-fundamentals/1.3-functions/functions.ts:161-166 | the function declaration and the arrow function both compute a·b |
| `Funciones.GenerarSaludo` | exercises/1-fundamentals/1.3-functions/functions.ts:172-175 | the greeting starts with "Estimado/a " and ends with ", un placer saludarle."; with no title there is nothing between these and the name; with a title, title + " " + name follows the opening |
| `Estudiantes.Unir` | exercises/1-fundamentals/1.2-classes/start.ts:52 | joining no elements gives ""; one element gives that element; otherwise the join starts with the first element; `UnirAgregar` and `LongitudUnir` state the rest |
| `Estudiantes.UnirAgregar` | exercises/1-fundamentals/1.2-classes/start.ts:52 | joining after an append is the earlier join, then the separator, then the new element (the element alone for an empty list) |
| `Estudiantes.LongitudUnir` | exercises/1-fundamentals/1.2-classes/start.ts:52 | the length of a join is the total length of the elements plus one separator per neighbouring pair |
| `Estudiantes.Estudiante.constructor` | exercises/1-fundamentals/1.2-classes/start.ts:40-44 | name and age are stored as given; the course list starts empty |
| `Estudiantes.Estudiante.InscribirCurso` | exercises/1-fundamentals/1.2-classes/start.ts:46-49 | appends the course at the end, with no duplicate check: its count goes up by one; name and age are untouched; the summary grows by the course, preceded by ", " unless it is the first |
| `Estudiantes.Estudiante.MostrarCursos` | exercises/1-fundamentals/1.2-classes/start.ts:51-53 | the name and " está inscrito en: " come first, then the courses joined with ", "; changes nothing |
| `Introduccion.CalculateTotal` | exercises/1-fundamentals/1.1-introduction/start.ts:48-52 | the total is price·quantity·(100 − discount)/100; it is price·quantity for a 0 % discount and 0 for a 100 % discount |
| `Introduccion.CalculateTotalAcotado` | exercises/1-fundamentals/1.1-introduction/start.ts:48-52 | for non-negative price and quantity and a discount in [0, 100], the total lies between 0 and price·quantity, and a larger discount never gives a larger total |
| `Introduccion.FormatName` | exercises/1-fundamentals/1.1-introduction/start.ts:60-65 | gives first + " " + middle + " " + last when asked and the middle name is non-empty, and first + " " + last otherwise; it always starts with first + " " and ends with " " + last |

## Left out

- The generic cache with eviction policies, time-to-live and memoization,
  the event emitter, the validators and `pipe`/`compose`. They exist only as
  comments and commented-out sketches in
  exercises/1-fundamentals/1.3-functions/challenges.ts, and their tests are
  commented out, so there is no behaviour to model.
- The TODO-only exercises: 1.2-classes/challenges.ts,
  1.3-functions/start.ts, and the classes that 1.2-classes/test.ts expects
  but 1.2-classes/start.ts does not define.
- Console output everywhere. This includes `registrarTransaccion` (a
  timestamped log line), `mostrarDetalles`, `mostrarConfiguracion`,
  `saludar`, `configurarAplicacion`, `registrarActividad` and the log line
  in `inscribirCurso`. They change no state.
- The `Math.random` account number of `CuentaBancaria`: the number is a
  constructor argument instead.
- `setTimeout` in `reproducirContenido`, and the asynchronous
  `obtenerDatos` and `validarUsuario`.
- Floating-point rounding and number formatting, which have no exact model
  here:
  - `Circulo` and `Calculadora.areaCirculo`, which use π;
  - `calcularMargen` (`Math.round`) and `aplicarDescuento`
    (`toFixed`/`parseFloat`);
  - `formatearValor` and the string and number branches of `convertir`;
  - `division`;
  - the `mostrarInfo`, `obtenerInfo` and `mostrarDetalles` strings, which
    render numbers.
- Money is `int`, not a JavaScript double. Rounding in `+=` and `-=` on
  large or fractional amounts is not modelled.
- `Usuario.mostrarInfo` (modifiers.ts), which formats `nombre (email)` as a
  display string; the `Usuario` class is otherwise only its two fields.
- Classes and members that carry no logic beyond storing their fields:
  `Configuracion` (modifiers.ts);
  `ProductoSimplificado`, `Vehiculo`, `Coche`, `ReproductorVideo` and
  `Forma.obtenerColor` (classes.ts); the getters `costo` and `proveedor`,
  which are plain field reads in the model; `ProductoEspecial`, whose only
  logic is the floating-point code above.
- Type-level demonstrations (1.1-introduction/interfaces.ts, `Readonly`,
  `Pick`, `Omit`, default generic parameters), and the `Contenedor` classes,
  which depend on the current date.
- `Saldos.Ejecutar` assumes that the caller catches each thrown error and
  goes on with the next call. An uncaught throw ends the sequence instead,
  at the balance reached so far.
- `Genericos.Fusionar`: an absent field is `None`. A partial record that
  holds a field explicitly set to `undefined` would, in JavaScript,
  overwrite the original field with `undefined`; that case is not modelled.
- `Genericos.ListaGenerica.ObtenerElemento`: indices are integers. A
  fractional index inside the bounds returns `undefined` in JavaScript; that
  case is not modelled.
- `Modificadores.Producto.Vender`, `Modificadores.Producto.Reabastecer`,
  `Modificadores.Producto.ActualizarInventario`: quantities are `int`, not
  doubles.
- `Introduccion.CalculateTotal` and `Introduccion.FormatName`: their
  parameters are untyped in the source. The comments show only `number`
  for `calculateTotal` and `firstName: string` for `formatName`. The
  other types are the model's reading of the parameter names: strings for
  `lastName`, a boolean for `includeMiddle` and an optional string for
  `middleName`. Other JavaScript values, with their own truthiness, are
  not modelled.
- `Genericos.ObtenerLongitud`: only strings and arrays are modelled, both
  as sequences. The source also applies it to a plain object with a
  `length` field (`{ length: 10, nombre: "objeto" }`), which is not
  modelled. For strings outside the Basic Multilingual Plane the result
  differs from JavaScript's (see the next line).
- Strings are sequences of Unicode code points, while JavaScript's
  `length` and `slice` count UTF-16 code units. The two agree only on text
  within the Basic Multilingual Plane. Outside it, `"😀".length` is 2 in
  JavaScript but 1 in the model, and `'****' + n.slice(-4)` in
  `Modificadores.CuentaBancaria.ObtenerNumeroCuenta` can split a surrogate
  pair where the model keeps whole characters.
- `Funciones.Sumar`, `Funciones.Reducir`, `Funciones.SumarTodos`,
  `Funciones.Calcular`, `Funciones.MultiplicarNormal` and
  `Clases.Calculadora.Sumar` work on `int`, not JavaScript doubles.
  So `Funciones.Reducir`'s closed form and `Funciones.SumarTodosConcatenacion`
  hold only in the model: in JavaScript `sumarTodos(0.1, 0.2, 0.3)` is
  0.6000000000000001, while `sumarTodos(0.1) + sumarTodos(0.2, 0.3)` is 0.6.
  Rounding and overflow to infinity are not modelled.
