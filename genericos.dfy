/** Model of exercises/1-fundamentals/1.3-functions/generics.ts: generic
    helpers, the append-only generic list and the partial-record update. */
module Genericos {
  import opened Resultados

  // ---------------------------------------------------------------------------
  // Generic functions
  // ---------------------------------------------------------------------------

  /** The first element, or `undefined` for an empty array. */
  function PrimerElemento<T>(a: seq<T>): (r: Option<T>)
    ensures r.None? <==> a == []
    ensures r.Some? ==> r.value == a[0]
  {
    if |a| > 0 then Some(a[0]) else None
  }

  /** The first element of a concatenation is that of its first part, unless
      that part is empty. */
  lemma PrimerElementoConcatenacion<T>(a: seq<T>, b: seq<T>)
    ensures PrimerElemento(a + b) == if a == [] then PrimerElemento(b) else PrimerElemento(a)
  {
  }

  /** The pair of the two arguments, in argument order. */
  function Combinar<T, U>(a: T, b: U): (r: (T, U))
    ensures r.0 == a && r.1 == b
  {
    (a, b)
  }

  /** The pair determines both arguments: equal pairs come from equal
      arguments, in the same positions. */
  lemma CombinarInyectiva<T, U>(a: T, b: U, c: T, d: U)
    ensures Combinar(a, b) == Combinar(c, d) <==> a == c && b == d
  {
  }

  /** The `length` of a string or an array, both sequences here. */
  function ObtenerLongitud<T>(item: seq<T>): (n: nat)
    ensures n == |item|
  {
    |item|
  }

  /** The length of a concatenation is the sum of the lengths. */
  lemma ObtenerLongitudConcatenacion<T>(a: seq<T>, b: seq<T>)
    ensures ObtenerLongitud(a + b) == ObtenerLongitud(a) + ObtenerLongitud(b)
  {
  }

  // ---------------------------------------------------------------------------
  // Array.prototype.filter
  // ---------------------------------------------------------------------------

  /** The elements of `s` that satisfy `p`, in their original order. */
  function Filtro<T>(s: seq<T>, p: T -> bool): (r: seq<T>)
    ensures |r| <= |s|
    ensures forall i | 0 <= i < |r| :: p(r[i])
    decreases |s|
  {
    if s == [] then []
    else (if p(s[0]) then [s[0]] else []) + Filtro(s[1..], p)
  }

  /** Filtering distributes over concatenation: the relative order of the
      kept elements is that of the input. */
  lemma {:induction false} FiltroConcatenacion<T>(a: seq<T>, b: seq<T>, p: T -> bool)
    ensures Filtro(a + b, p) == Filtro(a, p) + Filtro(b, p)
    decreases |a|
  {
    if a == [] {
      assert a + b == b;
    } else {
      assert (a + b)[0] == a[0];
      assert (a + b)[1..] == a[1..] + b;
      FiltroConcatenacion(a[1..], b, p);
    }
  }

  /** Exactly the elements satisfying `p` are kept, each as many times as it
      occurs in the input; every other element is dropped. */
  lemma {:induction false} FiltroMultiplicidad<T>(s: seq<T>, p: T -> bool, x: T)
    ensures multiset(Filtro(s, p))[x] == if p(x) then multiset(s)[x] else 0
    decreases |s|
  {
    if s != [] {
      FiltroMultiplicidad(s[1..], p, x);
      assert s == [s[0]] + s[1..];
    }
  }

  /** A filter that every element passes returns the input unchanged. */
  lemma {:induction false} FiltroTodos<T>(s: seq<T>, p: T -> bool)
    requires forall i | 0 <= i < |s| :: p(s[i])
    ensures Filtro(s, p) == s
    decreases |s|
  {
    if s != [] {
      FiltroTodos(s[1..], p);
    }
  }

  // ---------------------------------------------------------------------------
  // ListaGenerica
  // ---------------------------------------------------------------------------

  /** An append-only list with bounds-checked access. */
  class ListaGenerica<T> {
    var elementos: seq<T>

    constructor ()
      ensures elementos == []
    {
      elementos := [];
    }

    /** Pushes `elemento` at the end; nothing before it moves. */
    method Agregar(elemento: T)
      modifies this
      ensures elementos == old(elementos) + [elemento]
      ensures Longitud() == old(Longitud()) + 1
      ensures ObtenerElemento(old(Longitud())) == Some(elemento)
      ensures forall i :: i != old(Longitud()) ==> ObtenerElemento(i) == old(ObtenerElemento(i))
    {
      elementos := elementos + [elemento];
    }

    /** The element at `indice` when it is a valid position, otherwise
        `undefined`. */
    function ObtenerElemento(indice: int): (r: Option<T>)
      reads this
      ensures r.Some? <==> 0 <= indice < Longitud()
      ensures r.Some? ==> r.value == elementos[indice]
    {
      if indice >= 0 && indice < |elementos| then Some(elementos[indice]) else None
    }

    /** The number of stored elements. */
    function Longitud(): (n: nat)
      reads this
      ensures n == |elementos|
    {
      |elementos|
    }

    /** A new array of the stored elements that satisfy `condicion`, in
        order; the list itself is only read. */
    function Filtrar(condicion: T -> bool): (r: seq<T>)
      reads this
      ensures |r| <= Longitud()
      ensures forall i | 0 <= i < |r| :: condicion(r[i])
    {
      Filtro(elementos, condicion)
    }
  }

  /** The first element of the list, read through the generic helper, is the
      element at index 0. */
  lemma PrimerEsObtenerCero<T>(l: ListaGenerica<T>)
    ensures PrimerElemento(l.elementos) == l.ObtenerElemento(0)
  {
  }

  /** Two lists that answer every index alike hold the same elements: the
      bounds-checked reads determine the contents and the length. */
  lemma ObtenerDeterminaContenido<T>(l1: ListaGenerica<T>, l2: ListaGenerica<T>)
    requires forall i :: l1.ObtenerElemento(i) == l2.ObtenerElemento(i)
    ensures l1.elementos == l2.elementos
  {
    var n1, n2 := |l1.elementos|, |l2.elementos|;
    assert l2.ObtenerElemento(n1) == l1.ObtenerElemento(n1) == None;
    assert l1.ObtenerElemento(n2) == l2.ObtenerElemento(n2) == None;
    forall i | 0 <= i < n1 ensures l1.elementos[i] == l2.elementos[i] {
      assert l1.ObtenerElemento(i) == l2.ObtenerElemento(i);
    }
  }

  /** Filtering after an append keeps the earlier result and adds the new
      element when it passes. */
  lemma FiltrarTrasAgregar<T>(s: seq<T>, x: T, p: T -> bool)
    ensures Filtro(s + [x], p) == Filtro(s, p) + (if p(x) then [x] else [])
  {
    FiltroConcatenacion(s, [x], p);
    assert Filtro([x], p) == (if p(x) then [x] else []) + Filtro([], p);
  }

  // ---------------------------------------------------------------------------
  // Partial<Usuario> and object spread
  // ---------------------------------------------------------------------------

  datatype Usuario = Usuario(id: int, nombre: string, email: string, activo: bool)

  /** `Partial<Usuario>`: each field may be absent. */
  datatype UsuarioParcial = UsuarioParcial(
    id: Option<int>, nombre: Option<string>, email: Option<string>, activo: Option<bool>)

  const SinCambios := UsuarioParcial(None, None, None, None)

  /** `{ ...u, ...p }`: a field present in `p` wins, the others come from `u`. */
  function Fusionar(u: Usuario, p: UsuarioParcial): (r: Usuario)
    ensures p.id.Some? ==> r.id == p.id.value
    ensures p.id.None? ==> r.id == u.id
    ensures p.nombre.Some? ==> r.nombre == p.nombre.value
    ensures p.nombre.None? ==> r.nombre == u.nombre
    ensures p.email.Some? ==> r.email == p.email.value
    ensures p.email.None? ==> r.email == u.email
    ensures p.activo.Some? ==> r.activo == p.activo.value
    ensures p.activo.None? ==> r.activo == u.activo
  {
    Usuario(p.id.GetOr(u.id), p.nombre.GetOr(u.nombre), p.email.GetOr(u.email),
            p.activo.GetOr(u.activo))
  }

  /** `{ ...p, ...q }` of two partial records. */
  function Componer(p: UsuarioParcial, q: UsuarioParcial): (r: UsuarioParcial)
  {
    UsuarioParcial(
      if q.id.Some? then q.id else p.id,
      if q.nombre.Some? then q.nombre else p.nombre,
      if q.email.Some? then q.email else p.email,
      if q.activo.Some? then q.activo else p.activo)
  }

  /** Two successive spreads are one spread of the combined update; applying
      the same update twice is applying it once; the empty update changes
      nothing. */
  lemma FusionarComponer(u: Usuario, p: UsuarioParcial, q: UsuarioParcial)
    ensures Fusionar(Fusionar(u, p), q) == Fusionar(u, Componer(p, q))
    ensures Fusionar(Fusionar(u, p), p) == Fusionar(u, p)
    ensures Fusionar(u, SinCambios) == u
  {
  }

  /** The stand-in original record that `actualizarUsuario` looks up. */
  function UsuarioOriginal(id: int): Usuario {
    Usuario(id, "Usuario Original", "original@ejemplo.com", true)
  }

  /** The stand-in original for `id` updated with the fields present in
      `datosActualizados`; the id is the argument unless the update names one. */
  function ActualizarUsuario(id: int, datosActualizados: UsuarioParcial): (r: Usuario)
    ensures r.id == (if datosActualizados.id.Some? then datosActualizados.id.value else id)
    ensures datosActualizados.nombre.Some? ==> r.nombre == datosActualizados.nombre.value
    ensures datosActualizados.nombre.None? ==> r.nombre == "Usuario Original"
    ensures datosActualizados.email.Some? ==> r.email == datosActualizados.email.value
    ensures datosActualizados.email.None? ==> r.email == "original@ejemplo.com"
    ensures datosActualizados.activo.Some? ==> r.activo == datosActualizados.activo.value
    ensures datosActualizados.activo.None? ==> r.activo
    ensures datosActualizados == SinCambios ==> r == UsuarioOriginal(id)
  {
    Fusionar(UsuarioOriginal(id), datosActualizados)
  }
}
