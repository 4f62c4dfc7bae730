/** The imaginal universe (`UniversoProcessor`): each note becomes a star
    whose distance from the centre, height and brightness follow from its
    connections and its age, and groups of linked notes become
    constellations.

    Star angles and cartesian coordinates (a hash of the path, degrees,
    sine and cosine) are not part of this model.
 */
module StarUniverse {

  import opened Wrappers
  import Seqs
  import Assoc
  import NoteParser

  type Grafo = NoteParser.Grafo

  // ---------------------------------------------------------------------------
  // Stars
  // ---------------------------------------------------------------------------

  /** `calcular_posicion_3d`, radius: 500 minus 20 per connection, never
      closer than 100. */
  function Distancia(conexiones: nat): (r: int)
    ensures 100 <= r <= 500
    ensures conexiones <= 20 ==> r == 500 - 20 * conexiones
    ensures conexiones >= 20 ==> r == 100
  {
    if 500 - conexiones * 20 > 100 then 500 - conexiones * 20 else 100
  }

  /** More connections never push a star further out. */
  lemma DistanciaMonotona(a: nat, b: nat)
    requires a <= b
    ensures Distancia(b) <= Distancia(a)
  {
  }

  /** `calcular_altura_temporal`, given the note's age in whole days (none
      when the note has no date): recent notes sit higher. */
  function Altura(dias: Option<int>): (r: int)
    ensures r in {200, 100, 0, -100, -200}
    ensures dias.None? ==> r == 0
    ensures dias.Some? && dias.value <= 7 ==> r == 200
    ensures dias.Some? && dias.value > 180 ==> r == -200
  {
    match dias
    case None => 0
    case Some(d) =>
      if d <= 7 then 200
      else if d <= 30 then 100
      else if d <= 90 then 0
      else if d <= 180 then -100
      else -200
  }

  /** An older note is never higher than a newer one. */
  lemma AlturaMonotona(a: int, b: int)
    requires a <= b
    ensures Altura(Some(b)) <= Altura(Some(a))
  {
  }

  /** `calcular_luminosidad` before rounding: 0.2 plus up to 0.8, reaching
      the maximum at a tenth of the notes' count in connections; 0.3 for an
      empty vault. */
  function Luminosidad(conexiones: nat, notas: nat): (r: real)
    ensures notas == 0 ==> r == 0.3
    ensures notas > 0 ==> 0.2 <= r <= 1.0
    ensures notas > 0 && conexiones == 0 ==> r == 0.2
    ensures notas > 0 && 10 * conexiones >= notas ==> r == 1.0
  {
    if notas == 0 then 0.3
    else
      var proporcion := conexiones as real / (notas as real * 0.1);
      0.2 + 0.8 * (if proporcion < 1.0 then proporcion else 1.0)
  }

  /** More connections never make a star dimmer. */
  lemma LuminosidadMonotona(a: nat, b: nat, notas: nat)
    requires a <= b && notas > 0
    ensures Luminosidad(a, notas) <= Luminosidad(b, notas)
  {
    var m := notas as real * 0.1;
    assert a as real / m <= b as real / m;
  }

  /** `Estrella`, without its preview, metadata, angle and coordinates. */
  datatype Estrella = Estrella(
    id: string, titulo: string, dimension: string, color: string,
    enlaces: seq<string>, numEnlaces: nat, distancia: int, altura: int, luminosidad: real)

  function EstrellaDe(n: NoteParser.Nota, g: Grafo, dias: Option<int>, total: nat): Estrella {
    var c := NoteParser.Conexiones(n, g);
    Estrella(n.filepath, n.titulo, n.dimension, NoteParser.Color(n.dimension),
      n.enlaces, c, Distancia(c), Altura(dias), Luminosidad(c, total))
  }

  /** `generar_estrellas`: one star per note, in order; `antiguedad` gives
      each note's age in days. */
  function GenerarEstrellas(notas: seq<NoteParser.Nota>, antiguedad: seq<Option<int>>): (r: seq<Estrella>)
    requires |antiguedad| == |notas|
    ensures |r| == |notas|
    ensures forall i :: 0 <= i < |r| ==>
      && r[i].id == notas[i].filepath && r[i].enlaces == notas[i].enlaces
      && r[i].numEnlaces == NoteParser.Conexiones(notas[i], NoteParser.ObtenerGrafo(notas))
      && 100 <= r[i].distancia <= 500 && 0.2 <= r[i].luminosidad <= 1.0
  {
    var g := NoteParser.ObtenerGrafo(notas);
    seq(|notas|, i requires 0 <= i < |notas| => EstrellaDe(notas[i], g, antiguedad[i], |notas|))
  }

  /** Of two stars of the same vault, the better connected one is at least
      as close and at least as bright. */
  lemma MasConectadaMasCerca(notas: seq<NoteParser.Nota>, antiguedad: seq<Option<int>>, i: nat, j: nat)
    requires |antiguedad| == |notas| && i < |notas| && j < |notas|
    requires var r := GenerarEstrellas(notas, antiguedad); r[i].numEnlaces <= r[j].numEnlaces
    ensures var r := GenerarEstrellas(notas, antiguedad);
      r[j].distancia <= r[i].distancia && r[i].luminosidad <= r[j].luminosidad
  {
    var r := GenerarEstrellas(notas, antiguedad);
    DistanciaMonotona(r[i].numEnlaces, r[j].numEnlaces);
    LuminosidadMonotona(r[i].numEnlaces, r[j].numEnlaces, |notas|);
  }

  // ---------------------------------------------------------------------------
  // Depth-first search over the resolved links
  // ---------------------------------------------------------------------------

  /** `grafo.get(nota_id, [])`. */
  function Vecinos(g: Grafo, x: string): seq<string> {
    match Assoc.Get(g, x)
    case Some(v) => v
    case None => []
  }

  /** Every path some link resolves to. */
  function Destinos(g: Grafo): set<string> {
    set i, j | 0 <= i < |g| && 0 <= j < |g[i].1| :: g[i].1[j]
  }

  lemma VecinosEnDestinos(g: Grafo, x: string)
    ensures forall v :: v in Vecinos(g, x) ==> v in Destinos(g)
  {
    if Assoc.HasKey(g, x) {
      var i := Assoc.IndexOf(g, x);
      assert Vecinos(g, x) == g[i].1;
      forall v | v in g[i].1
        ensures v in Destinos(g)
      {
        var j :| 0 <= j < |g[i].1| && g[i].1[j] == v;
      }
    }
  }

  /** Visiting a star not visited before shrinks the set of stars left to
      visit. */
  lemma Decrece(g: Grafo, vis: set<string>, x: string)
    requires x in Destinos(g) && x !in vis
    ensures |Destinos(g) - (vis + {x})| < |Destinos(g) - vis|
  {
    var antes, despues := Destinos(g) - vis, Destinos(g) - (vis + {x});
    assert antes == despues + {x};
  }

  predicate EnDestinos(g: Grafo, pila: seq<string>) {
    forall y :: y in pila ==> y in Destinos(g)
  }

  /** The recursive `dfs` written with an explicit stack: the top is
      visited next, and a newly visited star's neighbours go on top in their
      order, so stars are listed in the same preorder. */
  function Explorar(g: Grafo, pila: seq<string>, visitados: set<string>, cumulo: seq<string>): (r: (seq<string>, set<string>))
    requires EnDestinos(g, pila)
    decreases |Destinos(g) - visitados|, |pila|
  {
    if |pila| == 0 then (cumulo, visitados)
    else
      var x := pila[0];
      if x in visitados then Explorar(g, pila[1..], visitados, cumulo)
      else
        VecinosEnDestinos(g, x);
        Decrece(g, visitados, x);
        Explorar(g, Vecinos(g, x) + pila[1..], visitados + {x}, cumulo + [x])
  }

  /** The stars visited are those visited before and those of the cluster. */
  predicate Visitados(antes: set<string>, c: seq<string>, vis: set<string>) {
    vis == antes + Seqs.Elements(c)
  }

  /** Each star after the first is a neighbour of an earlier one: the
      cluster is reached from its first star. */
  predicate Arbol(g: Grafo, c: seq<string>) {
    forall k :: 0 < k < |c| ==> Ligado(g, c, k)
  }

  /** The `k`-th star is a neighbour of an earlier one. */
  predicate Ligado(g: Grafo, c: seq<string>, k: nat)
    requires k < |c|
  {
    exists m :: 0 <= m < k && c[k] in Vecinos(g, c[m])
  }

  /** Every neighbour of a star of the cluster has been visited. */
  predicate Cerrado(g: Grafo, c: seq<string>, vis: set<string>) {
    forall m, v :: 0 <= m < |c| && v in Vecinos(g, c[m]) ==> v in vis
  }

  /** Every neighbour of a star of the cluster is visited or waiting. */
  predicate CerradoSalvo(g: Grafo, c: seq<string>, vis: set<string>, pila: seq<string>) {
    forall m, v :: 0 <= m < |c| && v in Vecinos(g, c[m]) ==> v in vis || v in pila
  }

  /** Every waiting star is a neighbour of a star of the cluster. */
  predicate Pendientes(g: Grafo, c: seq<string>, pila: seq<string>) {
    forall y :: y in pila ==> exists m :: 0 <= m < |c| && y in Vecinos(g, c[m])
  }

  predicate Nuevos(antes: set<string>, c: seq<string>) {
    forall y :: y in c ==> y !in antes
  }

  /** What the search keeps true at each step. */
  predicate Invariante(g: Grafo, pila: seq<string>, vis: set<string>, c: seq<string>, antes: set<string>) {
    && Visitados(antes, c, vis) && Seqs.Distinct(c) && Nuevos(antes, c) && Arbol(g, c)
    && Pendientes(g, c, pila) && CerradoSalvo(g, c, vis, pila)
  }

  lemma PasoArbol(g: Grafo, c: seq<string>, pila: seq<string>)
    requires |pila| > 0 && Arbol(g, c) && Pendientes(g, c, pila)
    ensures Arbol(g, c + [pila[0]])
  {
    var c2 := c + [pila[0]];
    forall k | 0 < k < |c2|
      ensures Ligado(g, c2, k)
    {
      if k < |c| {
        assert Ligado(g, c, k);
        var m :| 0 <= m < k && c[k] in Vecinos(g, c[m]);
        assert c2[m] == c[m] && c2[k] == c[k];
      } else {
        assert pila[0] in pila;
        var m :| 0 <= m < |c| && pila[0] in Vecinos(g, c[m]);
        assert c2[m] == c[m] && c2[k] == pila[0];
      }
    }
  }

  lemma PasoPendientes(g: Grafo, c: seq<string>, pila: seq<string>)
    requires |pila| > 0 && Pendientes(g, c, pila)
    ensures Pendientes(g, c + [pila[0]], Vecinos(g, pila[0]) + pila[1..])
  {
    var c2, p2 := c + [pila[0]], Vecinos(g, pila[0]) + pila[1..];
    forall y | y in p2
      ensures exists m :: 0 <= m < |c2| && y in Vecinos(g, c2[m])
    {
      if y in Vecinos(g, pila[0]) {
        assert c2[|c|] == pila[0];
      } else {
        assert y in pila;
        var m :| 0 <= m < |c| && y in Vecinos(g, c[m]);
        assert c2[m] == c[m];
      }
    }
  }

  lemma PasoCerrado(g: Grafo, c: seq<string>, vis: set<string>, pila: seq<string>)
    requires |pila| > 0 && CerradoSalvo(g, c, vis, pila)
    ensures CerradoSalvo(g, c + [pila[0]], vis + {pila[0]}, Vecinos(g, pila[0]) + pila[1..])
  {
    var x := pila[0];
    var c2, p2 := c + [x], Vecinos(g, x) + pila[1..];
    forall m, v | 0 <= m < |c2| && v in Vecinos(g, c2[m])
      ensures v in vis + {x} || v in p2
    {
      if m < |c| {
        assert c2[m] == c[m];
        assert v in vis || v == x || v in pila[1..];
      }
    }
  }

  lemma PasoVisitados(antes: set<string>, c: seq<string>, vis: set<string>, x: string)
    requires Visitados(antes, c, vis) && Seqs.Distinct(c) && Nuevos(antes, c) && x !in vis
    ensures Visitados(antes, c + [x], vis + {x}) && Seqs.Distinct(c + [x]) && Nuevos(antes, c + [x])
  {
    var c2 := c + [x];
    assert Seqs.Elements(c2) == Seqs.Elements(c) + {x};
    assert forall k :: 0 <= k < |c| ==> c2[k] == c[k] && c[k] in Seqs.Elements(c);
  }

  lemma {:induction false} ExplorarSpec(g: Grafo, pila: seq<string>, vis: set<string>, c: seq<string>, antes: set<string>)
    requires EnDestinos(g, pila) && Invariante(g, pila, vis, c, antes)
    ensures var r := Explorar(g, pila, vis, c);
      && c <= r.0 && Visitados(antes, r.0, r.1) && Seqs.Distinct(r.0) && Nuevos(antes, r.0)
      && Arbol(g, r.0) && Cerrado(g, r.0, r.1)
    decreases |Destinos(g) - vis|, |pila|
  {
    if |pila| > 0 {
      var x := pila[0];
      if x in vis {
        SaltaVisitado(g, pila, vis, c, antes);
        ExplorarSpec(g, pila[1..], vis, c, antes);
      } else {
        VecinosEnDestinos(g, x);
        Decrece(g, vis, x);
        VisitaNueva(g, pila, vis, c, antes);
        ExplorarSpec(g, Vecinos(g, x) + pila[1..], vis + {x}, c + [x], antes);
      }
    } else {
      PilaVacia(g, c, vis, pila);
    }
  }

  /** With nothing left waiting, the cluster is closed. */
  lemma PilaVacia(g: Grafo, c: seq<string>, vis: set<string>, pila: seq<string>)
    requires |pila| == 0 && CerradoSalvo(g, c, vis, pila)
    ensures Cerrado(g, c, vis)
  {
  }

  /** Popping a star already visited keeps the invariant. */
  lemma SaltaVisitado(g: Grafo, pila: seq<string>, vis: set<string>, c: seq<string>, antes: set<string>)
    requires |pila| > 0 && pila[0] in vis && Invariante(g, pila, vis, c, antes)
    ensures Invariante(g, pila[1..], vis, c, antes)
  {
    assert forall y :: y in pila[1..] ==> y in pila;
    assert forall y :: y in pila ==> y == pila[0] || y in pila[1..];
  }

  /** Visiting a new star and stacking its neighbours keeps the invariant. */
  lemma VisitaNueva(g: Grafo, pila: seq<string>, vis: set<string>, c: seq<string>, antes: set<string>)
    requires |pila| > 0 && pila[0] !in vis && Invariante(g, pila, vis, c, antes)
    ensures Invariante(g, Vecinos(g, pila[0]) + pila[1..], vis + {pila[0]}, c + [pila[0]], antes)
  {
    PasoArbol(g, c, pila);
    PasoPendientes(g, c, pila);
    PasoCerrado(g, c, vis, pila);
    PasoVisitados(antes, c, vis, pila[0]);
  }

  /** `dfs(estrella.id, cluster)` from a star, with the stars visited so far:
      the stars newly reached from it, in preorder, and the updated visited
      set. A star already visited gives an empty cluster. */
  function Dfs(g: Grafo, inicio: string, vis: set<string>): (r: (seq<string>, set<string>))
    ensures inicio in vis ==> r.0 == [] && r.1 == vis
    ensures inicio !in vis ==> |r.0| > 0 && r.0[0] == inicio
    ensures Visitados(vis, r.0, r.1) && Seqs.Distinct(r.0) && Nuevos(vis, r.0)
    ensures Arbol(g, r.0) && Cerrado(g, r.0, r.1)
  {
    if inicio in vis then ([], vis)
    else
      var pila := Vecinos(g, inicio);
      VecinosEnDestinos(g, inicio);
      assert Seqs.Elements([inicio]) == {inicio};
      assert Pendientes(g, [inicio], pila) by {
        assert [inicio][0] == inicio;
      }
      ExplorarSpec(g, pila, vis + {inicio}, [inicio], vis);
      Explorar(g, pila, vis + {inicio}, [inicio])
  }

  /** A chain of links through stars not visited before. */
  predicate Camino(g: Grafo, p: seq<string>, antes: set<string>) {
    && (forall k :: 0 <= k < |p| ==> p[k] !in antes)
    && (forall k :: 0 < k < |p| ==> p[k] in Vecinos(g, p[k - 1]))
  }

  /** The cluster is the whole reach of its first star: every chain of
      links from it that avoids stars visited before stays in the cluster. */
  lemma {:induction false} DfsAlcance(g: Grafo, inicio: string, vis: set<string>, p: seq<string>)
    requires inicio !in vis
    requires |p| > 0 && p[0] == inicio && Camino(g, p, vis)
    ensures forall k :: 0 <= k < |p| ==> p[k] in Dfs(g, inicio, vis).0
  {
    var r := Dfs(g, inicio, vis);
    assert p[0] == r.0[0];
    CaminoEnCumulo(g, vis, r.0, r.1, p);
  }

  /** A chain of links from a star of a closed cluster through stars not
      visited before stays in the cluster. */
  lemma {:induction false} CaminoEnCumulo(g: Grafo, antes: set<string>, c: seq<string>, vis: set<string>, p: seq<string>)
    requires Visitados(antes, c, vis) && Cerrado(g, c, vis)
    requires |p| > 0 && p[0] in c && Camino(g, p, antes)
    ensures forall k :: 0 <= k < |p| ==> p[k] in c
  {
    if |p| > 1 {
      var q := p[..|p| - 1];
      assert Camino(g, q, antes);
      CaminoEnCumulo(g, antes, c, vis, q);
      assert p[|p| - 2] == q[|q| - 1];
      Alcanza(g, antes, c, vis, p[|p| - 2], p[|p| - 1]);
      assert forall k :: 0 <= k < |p| - 1 ==> p[k] == q[k];
    }
  }

  /** A neighbour of a star of a closed cluster that was not visited
      before is in the cluster. */
  lemma Alcanza(g: Grafo, antes: set<string>, c: seq<string>, vis: set<string>, y: string, z: string)
    requires Visitados(antes, c, vis) && Cerrado(g, c, vis)
    requires y in c && z in Vecinos(g, y) && z !in antes
    ensures z in c
  {
    var m :| 0 <= m < |c| && c[m] == y;
    assert z in vis;
  }

  /** The loop over the stars: a DFS from each star not yet visited, keeping
      the clusters of at least two stars. */
  function Cumulos(g: Grafo, ids: seq<string>, vis: set<string>): (r: seq<seq<string>>)
    decreases |ids|
  {
    if |ids| == 0 then []
    else
      var d := Dfs(g, ids[0], vis);
      (if |d.0| >= 2 then [d.0] else []) + Cumulos(g, ids[1..], d.1)
  }

  /** A kept cluster: at least two stars, the first one from the list,
      reached from it, without repeats and none visited before. */
  predicate CumuloValido(g: Grafo, ids: seq<string>, vis: set<string>, c: seq<string>) {
    |c| >= 2 && c[0] in ids && Arbol(g, c) && Seqs.Distinct(c) && Nuevos(vis, c)
  }

  /** No star is in two clusters. */
  predicate Disjuntos(r: seq<seq<string>>) {
    forall k, l, y :: 0 <= k < l < |r| && y in r[k] ==> y !in r[l]
  }

  lemma Debilitar(g: Grafo, ids: seq<string>, vis: set<string>, despues: set<string>, c: seq<string>)
    requires |ids| > 0 && vis <= despues && CumuloValido(g, ids[1..], despues, c)
    ensures CumuloValido(g, ids, vis, c)
  {
    assert c[0] in ids[1..];
  }

  /** The clusters found after a DFS avoid the stars it visited. */
  lemma Despues(g: Grafo, ids: seq<string>, vis: set<string>, r: seq<seq<string>>, y: string)
    requires forall k :: 0 <= k < |r| ==> CumuloValido(g, ids, vis, r[k])
    requires y in vis
    ensures forall k :: 0 <= k < |r| ==> y !in r[k]
  {
  }

  /** Every cluster is valid and no star is in two clusters. */
  lemma {:induction false} CumulosSpec(g: Grafo, ids: seq<string>, vis: set<string>)
    ensures forall k :: 0 <= k < |Cumulos(g, ids, vis)| ==> CumuloValido(g, ids, vis, Cumulos(g, ids, vis)[k])
    ensures Disjuntos(Cumulos(g, ids, vis))
    decreases |ids|
  {
    if |ids| > 0 {
      var d := Dfs(g, ids[0], vis);
      var resto := Cumulos(g, ids[1..], d.1);
      CumulosSpec(g, ids[1..], d.1);
      if |d.0| >= 2 {
        assert Cumulos(g, ids, vis) == [d.0] + resto;
        CabezaValida(g, ids, vis, d.0, d.1, resto);
      } else {
        assert Cumulos(g, ids, vis) == resto;
        ColaValida(g, ids, vis, d.1, resto);
      }
    }
  }

  /** The clusters found later stay valid for the earlier, smaller visited
      set and the longer list. */
  lemma ColaValida(g: Grafo, ids: seq<string>, vis: set<string>, despues: set<string>, resto: seq<seq<string>>)
    requires |ids| > 0 && vis <= despues
    requires forall k :: 0 <= k < |resto| ==> CumuloValido(g, ids[1..], despues, resto[k])
    ensures forall k :: 0 <= k < |resto| ==> CumuloValido(g, ids, vis, resto[k])
  {
    forall k | 0 <= k < |resto|
      ensures CumuloValido(g, ids, vis, resto[k])
    {
      Debilitar(g, ids, vis, despues, resto[k]);
    }
  }

  /** A kept cluster from the first star, put before the clusters found
      after it, keeps every cluster valid and disjoint. */
  lemma CabezaValida(g: Grafo, ids: seq<string>, vis: set<string>, c: seq<string>, despues: set<string>, resto: seq<seq<string>>)
    requires |ids| > 0 && |c| >= 2 && c[0] == ids[0]
    requires Visitados(vis, c, despues) && Seqs.Distinct(c) && Nuevos(vis, c) && Arbol(g, c)
    requires forall k :: 0 <= k < |resto| ==> CumuloValido(g, ids[1..], despues, resto[k])
    requires Disjuntos(resto)
    ensures forall k :: 0 <= k < |[c] + resto| ==> CumuloValido(g, ids, vis, ([c] + resto)[k])
    ensures Disjuntos([c] + resto)
  {
    var r := [c] + resto;
    assert CumuloValido(g, ids, vis, c);
    ColaValida(g, ids, vis, despues, resto);
    forall y | y in c
      ensures forall k :: 0 <= k < |resto| ==> y !in resto[k]
    {
      assert y in Seqs.Elements(c);
      Despues(g, ids[1..], despues, resto, y);
    }
    assert forall k :: 1 <= k < |r| ==> r[k] == resto[k - 1];
  }

  // ---------------------------------------------------------------------------
  // Constellations
  // ---------------------------------------------------------------------------

  /** `[e for e in estrellas if e.id in cluster]`. */
  function EstrellasDe(estrellas: seq<Estrella>, cumulo: seq<string>): (r: seq<Estrella>)
    ensures forall e :: e in r <==> e in estrellas && e.id in cumulo
    ensures Seqs.Subsequence(r, estrellas)
    ensures forall e {:trigger Seqs.Count(r, e)} :: Seqs.Count(r, e) == if e.id in cumulo then Seqs.Count(estrellas, e) else 0
  {
    Seqs.FilterOrder(estrellas, (e: Estrella) => e.id in cumulo);
    Seqs.Filter(estrellas, (e: Estrella) => e.id in cumulo)
  }

  /** The first star of a cluster is the first star of the input list that
      belongs to it, which is whose colour the constellation as written takes. */
  lemma EstrellasDePrimera(e: Estrella, estrellas: seq<Estrella>, cumulo: seq<string>)
    ensures EstrellasDe([e] + estrellas, cumulo) ==
      (if e.id in cumulo then [e] else []) + EstrellasDe(estrellas, cumulo)
  {
    Seqs.FilterAppend([e], estrellas, (x: Estrella) => x.id in cumulo);
    Seqs.FilterSingleton(e, (x: Estrella) => x.id in cumulo);
  }

  /** The quotient of the density, with no division by zero. */
  function Cociente(internos: nat, n: nat): real {
    if n * (n - 1) > 0 then internos as real / (n * (n - 1)) as real else 0.0
  }

  /** How many of a star's link titles equal a path of the cluster. */
  function EnlacesEnCumulo(enlaces: seq<string>, cumulo: seq<string>): (r: nat)
    ensures r <= |enlaces|
  {
    if |enlaces| == 0 then 0
    else (if enlaces[0] in cumulo then 1 else 0) + EnlacesEnCumulo(enlaces[1..], cumulo)
  }

  function SumaEnlacesEscritos(estrellas: seq<Estrella>, cumulo: seq<string>): nat {
    if |estrellas| == 0 then 0
    else EnlacesEnCumulo(estrellas[0].enlaces, cumulo) + SumaEnlacesEscritos(estrellas[1..], cumulo)
  }

  /** The density as written in `identificar_constelaciones`: link TITLES
      of the cluster's stars are looked up among the cluster's PATHS. */
  function DensidadEscrita(estrellas: seq<Estrella>, cumulo: seq<string>): (r: real)
    ensures r >= 0.0
  {
    Cociente(SumaEnlacesEscritos(EstrellasDe(estrellas, cumulo), cumulo), |cumulo|)
  }

  lemma {:induction false} EnlacesEnCumuloCero(enlaces: seq<string>, cumulo: seq<string>)
    requires forall j :: 0 <= j < |enlaces| ==> enlaces[j] !in cumulo
    ensures EnlacesEnCumulo(enlaces, cumulo) == 0
  {
    if |enlaces| > 0 {
      assert forall j :: 0 <= j < |enlaces| - 1 ==> enlaces[1..][j] == enlaces[j + 1];
      EnlacesEnCumuloCero(enlaces[1..], cumulo);
    }
  }

  lemma {:induction false} SumaEscritaCero(es: seq<Estrella>, cumulo: seq<string>)
    requires forall i, j :: 0 <= i < |es| && 0 <= j < |es[i].enlaces| ==> es[i].enlaces[j] !in cumulo
    ensures SumaEnlacesEscritos(es, cumulo) == 0
  {
    if |es| > 0 {
      EnlacesEnCumuloCero(es[0].enlaces, cumulo);
      assert forall i :: 0 <= i < |es| - 1 ==> es[1..][i] == es[i + 1];
      SumaEscritaCero(es[1..], cumulo);
    }
  }

  /** When no link title is also a path of the cluster, the written density
      is zero, and so is the importance. */
  lemma DensidadEscritaCero(estrellas: seq<Estrella>, cumulo: seq<string>)
    requires forall i, j :: 0 <= i < |estrellas| && 0 <= j < |estrellas[i].enlaces| ==> estrellas[i].enlaces[j] !in cumulo
    ensures DensidadEscrita(estrellas, cumulo) == 0.0
  {
    var f := EstrellasDe(estrellas, cumulo);
    assert forall i :: 0 <= i < |f| ==> f[i] in estrellas;
    SumaEscritaCero(f, cumulo);
  }

  /** The test for a link of `x` that stays inside the cluster. */
  function Interno(x: string, cumulo: seq<string>): string -> bool {
    (v: string) => v in cumulo && v != x
  }

  /** The links of a star to OTHER stars of the cluster, by resolved path. */
  function InternosDe(g: Grafo, x: string, cumulo: seq<string>): (r: seq<string>)
    ensures forall v :: v in r <==> v in Vecinos(g, x) && v in cumulo && v != x
  {
    Seqs.Filter(Vecinos(g, x), Interno(x, cumulo))
  }

  function SumaInternos(g: Grafo, xs: seq<string>, cumulo: seq<string>): nat {
    if |xs| == 0 then 0 else |InternosDe(g, xs[0], cumulo)| + SumaInternos(g, xs[1..], cumulo)
  }

  /** The density the cluster evidently means: the links between its stars
      over the `n(n-1)` ordered pairs of distinct stars. */
  function Densidad(g: Grafo, cumulo: seq<string>): (r: real)
    ensures r >= 0.0
  {
    Cociente(SumaInternos(g, cumulo, cumulo), |cumulo|)
  }

  lemma {:induction false} SinRepetidosFiltro(xs: seq<string>, p: string -> bool)
    requires Seqs.Distinct(xs)
    ensures Seqs.Distinct(Seqs.Filter(xs, p))
  {
    if |xs| > 0 {
      assert Seqs.Distinct(xs[1..]) by {
        assert forall i :: 0 <= i < |xs| - 1 ==> xs[1..][i] == xs[i + 1];
      }
      SinRepetidosFiltro(xs[1..], p);
      assert xs[0] !in xs[1..];
      var f := Seqs.Filter(xs[1..], p);
      assert forall i :: 0 <= i < |f| ==> f[i] in xs[1..];
    }
  }

  /** A star has at most `n - 1` links inside a cluster of `n` distinct stars
      when its resolved links have no repeats. */
  lemma InternosAcotados(g: Grafo, x: string, cumulo: seq<string>)
    requires Seqs.Distinct(cumulo) && x in cumulo
    requires Seqs.Distinct(Vecinos(g, x))
    ensures |InternosDe(g, x, cumulo)| <= |cumulo| - 1
  {
    var f := InternosDe(g, x, cumulo);
    SinRepetidosFiltro(Vecinos(g, x), Interno(x, cumulo));
    Seqs.DistinctCard(cumulo);
    var s := Seqs.Elements(cumulo);
    assert s == (s - {x}) + {x};
    Seqs.DistinctWithin(f, s - {x});
  }

  lemma {:induction false} SumaInternosAcotada(g: Grafo, xs: seq<string>, cumulo: seq<string>)
    requires Seqs.Distinct(cumulo)
    requires forall i :: 0 <= i < |xs| ==> xs[i] in cumulo && Seqs.Distinct(Vecinos(g, xs[i]))
    ensures SumaInternos(g, xs, cumulo) <= Veces(|xs|, |cumulo| - 1)
  {
    if |xs| > 0 {
      InternosAcotados(g, xs[0], cumulo);
      var resto := xs[1..];
      forall i | 0 <= i < |resto|
        ensures resto[i] in cumulo && Seqs.Distinct(Vecinos(g, resto[i]))
      {
        assert resto[i] == xs[i + 1];
      }
      SumaInternosAcotada(g, resto, cumulo);
    }
  }

  /** `a * n` as `a` repeated additions of `n`. */
  function Veces(a: nat, n: int): int
  {
    if a == 0 then 0 else Veces(a - 1, n) + n
  }

  lemma {:induction false} VecesProducto(a: nat, n: int)
    ensures Veces(a, n) == a * n
  {
    if a > 0 {
      VecesProducto(a - 1, n);
      assert (a - 1) * n + n == a * n;
    }
  }

  lemma CocienteAcotado(internos: nat, n: nat)
    requires internos <= n * (n - 1)
    ensures Cociente(internos, n) <= 1.0
  {
    if n * (n - 1) > 0 {
      var m := (n * (n - 1)) as real;
      assert internos as real <= m;
      assert internos as real / m <= m / m;
    }
  }

  /** With links that do not repeat, the density is a proportion. */
  lemma DensidadAcotada(g: Grafo, cumulo: seq<string>)
    requires Seqs.Distinct(cumulo)
    requires forall x :: x in cumulo ==> Seqs.Distinct(Vecinos(g, x))
    ensures 0.0 <= Densidad(g, cumulo) <= 1.0
  {
    SumaInternosAcotada(g, cumulo, cumulo);
    VecesProducto(|cumulo|, |cumulo| - 1);
    CocienteAcotado(SumaInternos(g, cumulo, cumulo), |cumulo|);
  }

  /** Two notes that link to each other by title: the written density of
      their cluster is 0 where the pair is fully linked. */
  lemma DensidadEscritaContraejemplo()
    ensures var g: Grafo := [("a.md", ["b.md"]), ("b.md", ["a.md"])];
      var es := [Estrella("a.md", "A", "", "", ["B"], 2, 460, 0, 1.0), Estrella("b.md", "B", "", "", ["A"], 2, 460, 0, 1.0)];
      DensidadEscrita(es, ["a.md", "b.md"]) == 0.0 && Densidad(g, ["a.md", "b.md"]) == 1.0
  {
    DensidadEscritaCero([Estrella("a.md", "A", "", "", ["B"], 2, 460, 0, 1.0), Estrella("b.md", "B", "", "", ["A"], 2, 460, 0, 1.0)], ["a.md", "b.md"]);
    ParCompleto("a.md", "b.md");
  }

  /** Two distinct stars linked to each other form a cluster of density 1. */
  lemma ParCompleto(x: string, y: string)
    requires x != y
    ensures Densidad([(x, [y]), (y, [x])], [x, y]) == 1.0
  {
    var g: Grafo := [(x, [y]), (y, [x])];
    var c := [x, y];
    Assoc.GetAt(g, 0);
    Assoc.GetAt(g, 1);
    assert Vecinos(g, x) == [y] && Vecinos(g, y) == [x];
    assert InternosDe(g, x, c) == [y] by {
      assert Interno(x, c)(y);
      assert Seqs.Filter([y], Interno(x, c)) == [y];
    }
    assert InternosDe(g, y, c) == [x] by {
      assert Interno(y, c)(x);
      assert Seqs.Filter([x], Interno(y, c)) == [x];
    }
    assert c[1..] == [y] && [y][1..] == [];
    assert SumaInternos(g, [y], c) == 1;
    assert SumaInternos(g, c, c) == 2;
  }

  /** `Constelacion`, without its name and centre of mass. */
  datatype Constelacion = Constelacion(
    indice: nat, estrellas: seq<string>, dimensionPrincipal: string, color: string,
    densidad: real, importancia: real)

  function Dimensiones(es: seq<Estrella>): (r: seq<string>)
    ensures |r| == |es| && forall i :: 0 <= i < |es| ==> r[i] == es[i].dimension
  {
    seq(|es|, i requires 0 <= i < |es| => es[i].dimension)
  }

  /** `max(set(dimensiones), key=dimensiones.count)`: a most frequent
      dimension among the cluster's stars. */
  function DimensionPrincipal(es: seq<Estrella>): (r: string)
    requires |es| > 0
    ensures r in Dimensiones(es)
    ensures forall i :: 0 <= i < |es| ==> Seqs.Count(Dimensiones(es), es[i].dimension) <= Seqs.Count(Dimensiones(es), r)
  {
    var dims := Dimensiones(es);
    assert forall i :: 0 <= i < |es| ==> es[i].dimension in dims;
    Seqs.MostCommon(dims)
  }

  /** The main dimension, empty for a cluster with no star. */
  function DimensionDe(es: seq<Estrella>): string {
    if |es| > 0 then DimensionPrincipal(es) else ""
  }

  /** The colour as written: that of the cluster's first star in star
      order, grey for no star. */
  function ColorEscrito(es: seq<Estrella>): (r: string)
    ensures |es| > 0 ==> r == es[0].color
    ensures |es| == 0 ==> r == NoteParser.Gris
  {
    if |es| > 0 then es[0].color else NoteParser.Gris
  }

  /** The colour the comment promises: that of the main dimension. */
  function ColorConstelacion(es: seq<Estrella>): (r: string)
    ensures |es| > 0 ==> r == NoteParser.Color(DimensionPrincipal(es))
    ensures |es| == 0 ==> r == NoteParser.Gris
  {
    if |es| > 0 then NoteParser.Color(DimensionPrincipal(es)) else NoteParser.Gris
  }

  /** A cluster whose first star is the only finance note among biology
      notes is painted red as written, orange as intended. */
  lemma ColorContraejemplo()
    ensures var es := [
        Estrella("a.md", "A", "finanzas", NoteParser.Color("finanzas"), [], 2, 460, 0, 1.0),
        Estrella("b.md", "B", "biologia", NoteParser.Color("biologia"), [], 2, 460, 0, 1.0),
        Estrella("c.md", "C", "biologia", NoteParser.Color("biologia"), [], 2, 460, 0, 1.0)];
      ColorEscrito(es) == "#DC2626" && ColorConstelacion(es) == "#F97316"
  {
    var es := [
        Estrella("a.md", "A", "finanzas", NoteParser.Color("finanzas"), [], 2, 460, 0, 1.0),
        Estrella("b.md", "B", "biologia", NoteParser.Color("biologia"), [], 2, 460, 0, 1.0),
        Estrella("c.md", "C", "biologia", NoteParser.Color("biologia"), [], 2, 460, 0, 1.0)];
    var dims := Dimensiones(es);
    assert dims == ["finanzas", "biologia", "biologia"];
    assert Seqs.Count(dims, "finanzas") == 1;
    assert Seqs.Count(dims, "biologia") == 2;
    assert DimensionPrincipal(es) == "biologia";
  }

  /** The `i`-th cluster as `identificar_constelaciones` builds it: its
      stars, their main dimension, the colour of its first star and the
      density counted over link titles, with its size times that density as
      its importance. */
  function ConstelacionEscrita(estrellas: seq<Estrella>, i: nat, cumulo: seq<string>): Constelacion
  {
    var es := EstrellasDe(estrellas, cumulo);
    var d := DensidadEscrita(estrellas, cumulo);
    Constelacion(i, cumulo, DimensionDe(es), ColorEscrito(es), d, Peso(cumulo, d))
  }

  /** The `i`-th cluster as the comments describe it: the colour of the main
      dimension and the density over resolved links. */
  function ConstelacionDe(g: Grafo, estrellas: seq<Estrella>, i: nat, cumulo: seq<string>): Constelacion
  {
    var es := EstrellasDe(estrellas, cumulo);
    var d := Densidad(g, cumulo);
    Constelacion(i, cumulo, DimensionDe(es), ColorConstelacion(es), d, Peso(cumulo, d))
  }

  /** The importance of a cluster: its size times its density. */
  function Peso(cumulo: seq<string>, densidad: real): real {
    |cumulo| as real * densidad
  }

  function Importancia(): Constelacion -> real {
    (c: Constelacion) => c.importancia
  }

  function Ids(estrellas: seq<Estrella>): (r: seq<string>)
    ensures |r| == |estrellas| && forall i :: 0 <= i < |r| ==> r[i] == estrellas[i].id
  {
    seq(|estrellas|, i requires 0 <= i < |estrellas| => estrellas[i].id)
  }

  function SinOrdenarEscrito(estrellas: seq<Estrella>, cs: seq<seq<string>>): (r: seq<Constelacion>)
    ensures |r| == |cs|
    ensures forall i :: 0 <= i < |r| ==> r[i] == ConstelacionEscrita(estrellas, i, cs[i])
  {
    seq(|cs|, i requires 0 <= i < |cs| => ConstelacionEscrita(estrellas, i, cs[i]))
  }

  function SinOrdenar(g: Grafo, estrellas: seq<Estrella>, cs: seq<seq<string>>): (r: seq<Constelacion>)
    ensures |r| == |cs|
    ensures forall i :: 0 <= i < |r| ==> r[i] == ConstelacionDe(g, estrellas, i, cs[i])
  {
    seq(|cs|, i requires 0 <= i < |cs| => ConstelacionDe(g, estrellas, i, cs[i]))
  }

  /** `identificar_constelaciones` as written: the kept clusters, in
      discovery order, as constellations, then sorted by importance, most
      important first. */
  function IdentificarConstelaciones(notas: seq<NoteParser.Nota>, estrellas: seq<Estrella>): (r: seq<Constelacion>)
    ensures var g := NoteParser.ObtenerGrafo(notas);
      var cs := Cumulos(g, Ids(estrellas), {});
      && multiset(r) == multiset(SinOrdenarEscrito(estrellas, cs))
      && (forall i, j :: 0 <= i < j < |r| ==> r[i].importancia >= r[j].importancia)
  {
    var g := NoteParser.ObtenerGrafo(notas);
    var sin := SinOrdenarEscrito(estrellas, Cumulos(g, Ids(estrellas), {}));
    Seqs.SortDescSpec(sin, Importancia());
    Seqs.SortDescPermutes(sin, Importancia());
    Seqs.SortDesc(sin, Importancia())
  }

  /** The same constellations with the colour of their main dimension and
      the density over resolved links. */
  function IdentificarConstelacionesCorregida(notas: seq<NoteParser.Nota>, estrellas: seq<Estrella>): (r: seq<Constelacion>)
    ensures var g := NoteParser.ObtenerGrafo(notas);
      var cs := Cumulos(g, Ids(estrellas), {});
      && multiset(r) == multiset(SinOrdenar(g, estrellas, cs))
      && (forall i, j :: 0 <= i < j < |r| ==> r[i].importancia >= r[j].importancia)
  {
    var g := NoteParser.ObtenerGrafo(notas);
    var sin := SinOrdenar(g, estrellas, Cumulos(g, Ids(estrellas), {}));
    Seqs.SortDescSpec(sin, Importancia());
    Seqs.SortDescPermutes(sin, Importancia());
    Seqs.SortDesc(sin, Importancia())
  }

  /** Constellations of equal importance keep their discovery order, as
      Python's stable sort keeps them: the `i`-th constellation is the
      `p[i]`-th one built, and `p` grows across ties. */
  lemma ConstelacionesEstables(notas: seq<NoteParser.Nota>, estrellas: seq<Estrella>)
    ensures var g := NoteParser.ObtenerGrafo(notas);
      var sin := SinOrdenarEscrito(estrellas, Cumulos(g, Ids(estrellas), {}));
      var r, p := IdentificarConstelaciones(notas, estrellas), Seqs.SortPerm(sin, Importancia());
      && |p| == |r| == |sin|
      && (forall i :: 0 <= i < |r| ==> p[i] < |sin| && r[i] == sin[p[i]])
      && (forall i, j :: 0 <= i < j < |r| && r[i].importancia == r[j].importancia ==> p[i] < p[j])
  {
    var g := NoteParser.ObtenerGrafo(notas);
    Seqs.SortDescSpec(SinOrdenarEscrito(estrellas, Cumulos(g, Ids(estrellas), {})), Importancia());
  }

  /** The same for the corrected constellations. */
  lemma ConstelacionesCorregidaEstables(notas: seq<NoteParser.Nota>, estrellas: seq<Estrella>)
    ensures var g := NoteParser.ObtenerGrafo(notas);
      var sin := SinOrdenar(g, estrellas, Cumulos(g, Ids(estrellas), {}));
      var r, p := IdentificarConstelacionesCorregida(notas, estrellas), Seqs.SortPerm(sin, Importancia());
      && |p| == |r| == |sin|
      && (forall i :: 0 <= i < |r| ==> p[i] < |sin| && r[i] == sin[p[i]])
      && (forall i, j :: 0 <= i < j < |r| && r[i].importancia == r[j].importancia ==> p[i] < p[j])
  {
    var g := NoteParser.ObtenerGrafo(notas);
    Seqs.SortDescSpec(SinOrdenar(g, estrellas, Cumulos(g, Ids(estrellas), {})), Importancia());
  }

  /** Every constellation as written is a kept cluster of at least two
      stars headed by a listed star, two constellations share no star, and
      each is painted with the colour of the cluster's first star in star
      order and weighted by its size times the density over link titles. */
  lemma ConstelacionesSpec(notas: seq<NoteParser.Nota>, estrellas: seq<Estrella>)
    ensures var g := NoteParser.ObtenerGrafo(notas);
      var cs := Cumulos(g, Ids(estrellas), {});
      var r := IdentificarConstelaciones(notas, estrellas);
      && |r| == |cs| && Disjuntos(cs)
      && (forall i :: 0 <= i < |r| ==> r[i].estrellas in cs && |r[i].estrellas| >= 2 && r[i].estrellas[0] in Ids(estrellas))
      && (forall i :: 0 <= i < |r| ==>
            && r[i].color == ColorEscrito(EstrellasDe(estrellas, r[i].estrellas))
            && r[i].densidad == DensidadEscrita(estrellas, r[i].estrellas)
            && r[i].importancia == Peso(r[i].estrellas, r[i].densidad))
  {
    var g := NoteParser.ObtenerGrafo(notas);
    var cs := Cumulos(g, Ids(estrellas), {});
    var r := IdentificarConstelaciones(notas, estrellas);
    CumulosSpec(g, Ids(estrellas), {});
    CumulosEscritos(estrellas, cs);
    ConstelacionesDeCumulos(g, Ids(estrellas), cs, SinOrdenarEscrito(estrellas, cs), r);
    FichasEscritas(estrellas, cs, r);
  }

  lemma CumulosEscritos(estrellas: seq<Estrella>, cs: seq<seq<string>>)
    ensures forall k :: 0 <= k < |cs| ==> SinOrdenarEscrito(estrellas, cs)[k].estrellas == cs[k]
  {
  }

  /** Any reordering of the constellations as written carries, for each
      cluster, the colour of its first star and the density over link
      titles. */
  lemma FichasEscritas(estrellas: seq<Estrella>, cs: seq<seq<string>>, r: seq<Constelacion>)
    requires multiset(r) == multiset(SinOrdenarEscrito(estrellas, cs))
    ensures forall i :: 0 <= i < |r| ==>
      && r[i].color == ColorEscrito(EstrellasDe(estrellas, r[i].estrellas))
      && r[i].densidad == DensidadEscrita(estrellas, r[i].estrellas)
      && r[i].importancia == Peso(r[i].estrellas, r[i].densidad)
  {
    var sin := SinOrdenarEscrito(estrellas, cs);
    forall i | 0 <= i < |r|
      ensures r[i].color == ColorEscrito(EstrellasDe(estrellas, r[i].estrellas))
      ensures r[i].densidad == DensidadEscrita(estrellas, r[i].estrellas)
      ensures r[i].importancia == Peso(r[i].estrellas, r[i].densidad)
    {
      assert r[i] in multiset(sin);
      var k :| 0 <= k < |sin| && sin[k] == r[i];
      CamposEscritos(estrellas, k, cs[k], r[i]);
    }
  }

  /** The fields of a constellation as written, read back. */
  lemma CamposEscritos(estrellas: seq<Estrella>, k: nat, c: seq<string>, x: Constelacion)
    requires x == ConstelacionEscrita(estrellas, k, c)
    ensures x.estrellas == c && x.color == ColorEscrito(EstrellasDe(estrellas, c))
    ensures x.densidad == DensidadEscrita(estrellas, c) && x.importancia == Peso(c, x.densidad)
  {
  }

  /** When no star's link is, letter for letter, a star's path or a path
      some link resolves to, as links written by title never are, every
      constellation as written has density and importance zero, however
      tightly its stars link to each other. */
  lemma ConstelacionesSinPeso(notas: seq<NoteParser.Nota>, estrellas: seq<Estrella>)
    requires forall i, j :: 0 <= i < |estrellas| && 0 <= j < |estrellas[i].enlaces| ==>
      estrellas[i].enlaces[j] !in Ids(estrellas) && estrellas[i].enlaces[j] !in Destinos(NoteParser.ObtenerGrafo(notas))
    ensures var r := IdentificarConstelaciones(notas, estrellas);
      forall i :: 0 <= i < |r| ==> r[i].densidad == 0.0 && r[i].importancia == 0.0
  {
    var g := NoteParser.ObtenerGrafo(notas);
    var ids := Ids(estrellas);
    var cs := Cumulos(g, ids, {});
    var r := IdentificarConstelaciones(notas, estrellas);
    CumulosSpec(g, ids, {});
    forall k | 0 <= k < |cs|
      ensures forall x :: x in cs[k] ==> x in ids || x in Destinos(g)
    {
      CumuloEnDestinos(g, ids, cs[k]);
    }
    CumulosEscritos(estrellas, cs);
    ConstelacionesDeCumulos(g, ids, cs, SinOrdenarEscrito(estrellas, cs), r);
    FichasEscritas(estrellas, cs, r);
    SinPeso(estrellas, Destinos(g), ids, cs, r);
  }

  /** Under the same condition the sort as written changes nothing: the
      constellations come out in the order their clusters were discovered. */
  lemma ConstelacionesSinPesoEnOrden(notas: seq<NoteParser.Nota>, estrellas: seq<Estrella>)
    requires forall i, j :: 0 <= i < |estrellas| && 0 <= j < |estrellas[i].enlaces| ==>
      estrellas[i].enlaces[j] !in Ids(estrellas) && estrellas[i].enlaces[j] !in Destinos(NoteParser.ObtenerGrafo(notas))
    ensures var g := NoteParser.ObtenerGrafo(notas);
      IdentificarConstelaciones(notas, estrellas) == SinOrdenarEscrito(estrellas, Cumulos(g, Ids(estrellas), {}))
  {
    var g := NoteParser.ObtenerGrafo(notas);
    var sin := SinOrdenarEscrito(estrellas, Cumulos(g, Ids(estrellas), {}));
    var r := IdentificarConstelaciones(notas, estrellas);
    ConstelacionesSinPeso(notas, estrellas);
    forall k | 0 <= k < |sin|
      ensures sin[k].importancia == 0.0
    {
      assert sin[k] in multiset(r);
    }
    Seqs.SortDescConstant(sin, Importancia());
  }

  /** A kept cluster holds its listed first star and stars some link
      resolves to. */
  lemma CumuloEnDestinos(g: Grafo, ids: seq<string>, c: seq<string>)
    requires CumuloValido(g, ids, {}, c)
    ensures forall x :: x in c ==> x in ids || x in Destinos(g)
  {
    forall k | 0 < k < |c|
      ensures c[k] in Destinos(g)
    {
      assert Ligado(g, c, k);
      var m :| 0 <= m < k && c[k] in Vecinos(g, c[m]);
      VecinosEnDestinos(g, c[m]);
    }
  }

  /** Constellations as written over clusters of named stars, when no link
      names one, all weigh nothing. */
  lemma SinPeso(estrellas: seq<Estrella>, destinos: set<string>, ids: seq<string>, cs: seq<seq<string>>, r: seq<Constelacion>)
    requires forall i, j :: 0 <= i < |estrellas| && 0 <= j < |estrellas[i].enlaces| ==>
      estrellas[i].enlaces[j] !in ids && estrellas[i].enlaces[j] !in destinos
    requires forall i :: 0 <= i < |r| ==> r[i].estrellas in cs
    requires forall k :: 0 <= k < |cs| ==> forall x :: x in cs[k] ==> x in ids || x in destinos
    requires forall i :: 0 <= i < |r| ==>
      r[i].densidad == DensidadEscrita(estrellas, r[i].estrellas) && r[i].importancia == Peso(r[i].estrellas, r[i].densidad)
    ensures forall i :: 0 <= i < |r| ==> r[i].densidad == 0.0 && r[i].importancia == 0.0
  {
    forall i | 0 <= i < |r|
      ensures r[i].densidad == 0.0 && r[i].importancia == 0.0
    {
      var c := r[i].estrellas;
      assert forall x :: x in c ==> x in ids || x in destinos;
      DensidadEscritaCero(estrellas, c);
    }
  }

  /** Every corrected constellation is a kept cluster of at least two stars
      headed by a listed star, and two constellations share no star. */
  lemma ConstelacionesCorregidasSpec(notas: seq<NoteParser.Nota>, estrellas: seq<Estrella>)
    ensures var g := NoteParser.ObtenerGrafo(notas);
      var cs := Cumulos(g, Ids(estrellas), {});
      var r := IdentificarConstelacionesCorregida(notas, estrellas);
      && |r| == |cs| && Disjuntos(cs)
      && (forall i :: 0 <= i < |r| ==> r[i].estrellas in cs && |r[i].estrellas| >= 2 && r[i].estrellas[0] in Ids(estrellas))
  {
    var g := NoteParser.ObtenerGrafo(notas);
    var cs := Cumulos(g, Ids(estrellas), {});
    var sin := SinOrdenar(g, estrellas, cs);
    CumulosSpec(g, Ids(estrellas), {});
    CumulosCorregidos(g, estrellas, cs);
    ConstelacionesDeCumulos(g, Ids(estrellas), cs, sin, IdentificarConstelacionesCorregida(notas, estrellas));
  }

  lemma CumulosCorregidos(g: Grafo, estrellas: seq<Estrella>, cs: seq<seq<string>>)
    ensures forall k :: 0 <= k < |cs| ==> SinOrdenar(g, estrellas, cs)[k].estrellas == cs[k]
  {
  }

  /** Each corrected constellation is painted with the colour of its main
      dimension and weighted by its size times the density over resolved
      links. */
  lemma ConstelacionesCorregidasPeso(notas: seq<NoteParser.Nota>, estrellas: seq<Estrella>)
    ensures var g := NoteParser.ObtenerGrafo(notas);
      var r := IdentificarConstelacionesCorregida(notas, estrellas);
      forall i :: 0 <= i < |r| ==>
        && r[i].color == ColorConstelacion(EstrellasDe(estrellas, r[i].estrellas))
        && r[i].densidad == Densidad(g, r[i].estrellas)
        && r[i].importancia == Peso(r[i].estrellas, r[i].densidad)
  {
    var g := NoteParser.ObtenerGrafo(notas);
    FichasCorregidas(g, estrellas, Cumulos(g, Ids(estrellas), {}), IdentificarConstelacionesCorregida(notas, estrellas));
  }

  lemma FichasCorregidas(g: Grafo, estrellas: seq<Estrella>, cs: seq<seq<string>>, r: seq<Constelacion>)
    requires multiset(r) == multiset(SinOrdenar(g, estrellas, cs))
    ensures forall i :: 0 <= i < |r| ==>
      && r[i].color == ColorConstelacion(EstrellasDe(estrellas, r[i].estrellas))
      && r[i].densidad == Densidad(g, r[i].estrellas)
      && r[i].importancia == Peso(r[i].estrellas, r[i].densidad)
  {
    var sin := SinOrdenar(g, estrellas, cs);
    forall i | 0 <= i < |r|
      ensures r[i].color == ColorConstelacion(EstrellasDe(estrellas, r[i].estrellas))
      ensures r[i].densidad == Densidad(g, r[i].estrellas)
      ensures r[i].importancia == Peso(r[i].estrellas, r[i].densidad)
    {
      assert r[i] in multiset(sin);
      var k :| 0 <= k < |sin| && sin[k] == r[i];
      CamposCorregidos(g, estrellas, k, cs[k], r[i]);
    }
  }

  /** The fields of a corrected constellation, read back. */
  lemma CamposCorregidos(g: Grafo, estrellas: seq<Estrella>, k: nat, c: seq<string>, x: Constelacion)
    requires x == ConstelacionDe(g, estrellas, k, c)
    ensures x.estrellas == c && x.color == ColorConstelacion(EstrellasDe(estrellas, c))
    ensures x.densidad == Densidad(g, c) && x.importancia == Peso(c, x.densidad)
  {
  }

  /** Any reordering of constellations built one per valid cluster keeps
      one constellation per cluster, each a cluster of at least two stars
      headed by a listed star. */
  lemma ConstelacionesDeCumulos(g: Grafo, ids: seq<string>, cs: seq<seq<string>>, sin: seq<Constelacion>, r: seq<Constelacion>)
    requires multiset(r) == multiset(sin)
    requires |sin| == |cs|
    requires forall k :: 0 <= k < |cs| ==> sin[k].estrellas == cs[k] && CumuloValido(g, ids, {}, cs[k])
    ensures |r| == |cs|
    ensures forall i :: 0 <= i < |r| ==> r[i].estrellas in cs && |r[i].estrellas| >= 2 && r[i].estrellas[0] in ids
  {
    assert |r| == |sin| by {
      assert |multiset(r)| == |multiset(sin)|;
    }
    forall i | 0 <= i < |r|
      ensures r[i].estrellas in cs && |r[i].estrellas| >= 2 && r[i].estrellas[0] in ids
    {
      assert r[i] in multiset(sin);
      var k :| 0 <= k < |sin| && sin[k] == r[i];
      assert CumuloValido(g, ids, {}, cs[k]);
    }
  }
}
