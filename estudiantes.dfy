/** Model of the `Estudiante` class of
    exercises/1-fundamentals/1.2-classes/start.ts: a student with a list of
    courses that enrolment appends to. */
module Estudiantes {

  /** `xs.join(sep)`: the elements separated by `sep`; empty for no elements. */
  function Unir(xs: seq<string>, sep: string): (r: string)
    ensures xs == [] ==> r == ""
    ensures xs != [] ==> |r| >= |xs[0]| && r[..|xs[0]|] == xs[0]
    ensures |xs| == 1 ==> r == xs[0]
    decreases |xs|
  {
    if |xs| == 0 then ""
    else if |xs| == 1 then xs[0]
    else xs[0] + sep + Unir(xs[1..], sep)
  }

  /** Joining after an append extends the previous join by the separator and
      the new element (just the element when the list was empty). */
  lemma {:induction false} UnirAgregar(xs: seq<string>, x: string, sep: string)
    ensures Unir(xs + [x], sep) == if xs == [] then x else Unir(xs, sep) + sep + x
    decreases |xs|
  {
    if |xs| >= 2 {
      assert (xs + [x])[1..] == xs[1..] + [x];
      UnirAgregar(xs[1..], x, sep);
    } else if |xs| == 1 {
      assert (xs + [x])[1..] == [x];
    }
  }

  /** The joined text is as long as the elements plus one separator between
      each neighbouring pair. */
  function LongitudTotal(xs: seq<string>): nat
    decreases |xs|
  {
    if xs == [] then 0 else |xs[0]| + LongitudTotal(xs[1..])
  }

  lemma {:induction false} LongitudUnir(xs: seq<string>, sep: string)
    requires xs != []
    ensures |Unir(xs, sep)| == LongitudTotal(xs) + (|xs| - 1) * |sep|
    decreases |xs|
  {
    if |xs| >= 2 {
      LongitudUnir(xs[1..], sep);
    }
  }

  const Inscrito := " está inscrito en: "
  const Separador := ", "

  class Estudiante {
    var nombre: string
    var edad: int
    var cursos: seq<string>

    /** A new student has no courses. */
    constructor (nombre: string, edad: int)
      ensures this.nombre == nombre && this.edad == edad && cursos == []
    {
      this.nombre := nombre;
      this.edad := edad;
      cursos := [];
    }

    /** Appends `curso` without checking for duplicates: each enrolment adds
        one more occurrence. Name and age are untouched. */
    method InscribirCurso(curso: string)
      modifies this`cursos
      ensures cursos == old(cursos) + [curso]
      ensures multiset(cursos) == multiset(old(cursos)) + multiset{curso}
      ensures MostrarCursos() ==
        old(MostrarCursos()) + (if old(cursos) == [] then "" else Separador) + curso
    {
      UnirAgregar(cursos, curso, Separador);
      cursos := cursos + [curso];
    }

    /** The name, the fixed phrase and the courses joined with ", ". */
    function MostrarCursos(): (r: string)
      reads this
      ensures |r| >= |nombre| + |Inscrito|
      ensures r[..|nombre| + |Inscrito|] == nombre + Inscrito
      ensures cursos == [] ==> r == nombre + Inscrito
      ensures |cursos| == 1 ==> r == nombre + Inscrito + cursos[0]
    {
      nombre + Inscrito + Unir(cursos, Separador)
    }
  }
}
