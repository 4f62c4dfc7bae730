/** The Obsidian vault parser (`ObsidianParser`, `NotaObsidian`): the
    title, the `[[links]]` and the `#tags` read off a note's text, the graph
    of resolved links between notes, backlinks, hubs and orphans, the colour
    of a life dimension and the keyword scoring that assigns a dimension.

    The regular expressions of the parser are written out as scanners over
    the text; each one says which regular-expression behaviour it follows.
 */
module NoteParser {

  import opened Wrappers
  import Text
  import Seqs
  import Assoc

  // ---------------------------------------------------------------------------
  // Links: `\[\[([^\]|]+)(?:\|[^\]]+)?\]\]`
  // ---------------------------------------------------------------------------

  /** A character allowed in a link target. */
  function EnDestino(c: char): bool { c != ']' && c != '|' }

  /** A character allowed in a link alias. */
  function EnAlias(c: char): bool { c != ']' }

  /** What the link pattern can capture: a non-empty target without `]` or `|`. */
  predicate EsDestino(t: string) {
    |t| > 0 && forall k :: 0 <= k < |t| ==> EnDestino(t[k])
  }

  /** The link pattern matched at the start of `s`: the captured target and
      the length of the match. Both repetitions are greedy and the
      character after each one is not in its class, so no backtracking can
      produce another match. */
  function EnlaceAlInicio(s: string): (r: Option<(string, nat)>)
    ensures r.Some? ==> 4 < r.value.1 <= |s| && 2 + |r.value.0| < r.value.1 && EsDestino(r.value.0)
    ensures r.Some? ==> s[..2] == "[[" && s[2..2 + |r.value.0|] == r.value.0
  {
    if |s| >= 2 && s[0] == '[' && s[1] == '[' then
      var j := Text.RunEnd(s, 2, EnDestino);
      if j == 2 then None
      else if j < |s| && s[j] == '|' then
        var k := Text.RunEnd(s, j + 1, EnAlias);
        if k > j + 1 && k + 1 < |s| && s[k + 1] == ']' then Some((s[2..j], k + 2)) else None
      else if j + 1 < |s| && s[j] == ']' && s[j + 1] == ']' then Some((s[2..j], j + 2))
      else None
    else None
  }

  /** `re.findall` of the link pattern: the targets of the non-overlapping
      matches, left to right, duplicates included. */
  function Enlaces(s: string): (r: seq<string>)
    ensures forall i :: 0 <= i < |r| ==> EsDestino(r[i])
    decreases |s|
  {
    if |s| == 0 then []
    else match EnlaceAlInicio(s)
      case Some((t, n)) => [t] + Enlaces(s[n..])
      case None => Enlaces(s[1..])
  }

  /** `_extraer_enlaces`: the distinct link targets. */
  function ExtraerEnlaces(s: string): (r: seq<string>)
    ensures forall t :: t in r <==> t in Enlaces(s)
    ensures forall i, j :: 0 <= i < j < |r| ==> r[i] != r[j]
    ensures forall i :: 0 <= i < |r| ==> EsDestino(r[i])
  {
    Seqs.Dedup(Enlaces(s))
  }

  /** A link as written in a note: `[[destino]]` or `[[destino|alias]]`. */
  datatype Enlace = Enlace(destino: string, alias: Option<string>)

  predicate EnlaceValido(e: Enlace) {
    EsDestino(e.destino)
    && (e.alias.Some? ==> |e.alias.value| > 0 && forall k :: 0 <= k < |e.alias.value| ==> EnAlias(e.alias.value[k]))
  }

  function TextoEnlace(e: Enlace): string {
    match e.alias
    case None => "[[" + e.destino + "]]"
    case Some(a) => "[[" + e.destino + "|" + a + "]]"
  }

  /** A written link is read back as its target, and scanning resumes right
      after it. */
  lemma EnlaceLeido(e: Enlace, resto: string)
    requires EnlaceValido(e)
    ensures Enlaces(TextoEnlace(e) + resto) == [e.destino] + Enlaces(resto)
  {
    var t := e.destino;
    var s := TextoEnlace(e) + resto;
    match e.alias {
      case None =>
        EnlaceSinAliasAlInicio(e, resto);
        assert s[|t| + 4..] == resto;
      case Some(a) =>
        EnlaceConAliasAlInicio(e, resto);
        assert s[|t| + |a| + 5..] == resto;
    }
  }

  /** The target of a link written by `TextoEnlace` ends where its text says. */
  lemma DestinoAlInicio(e: Enlace, resto: string)
    requires EnlaceValido(e)
    ensures var s := TextoEnlace(e) + resto;
      && s[0] == '[' && s[1] == '['
      && Text.RunEnd(s, 2, EnDestino) == 2 + |e.destino|
      && s[2..2 + |e.destino|] == e.destino
  {
    var t := e.destino;
    var s := TextoEnlace(e) + resto;
    assert forall k :: 0 <= k < |t| ==> s[2 + k] == t[k];
    assert !EnDestino(s[2 + |t|]);
  }

  lemma EnlaceSinAliasAlInicio(e: Enlace, resto: string)
    requires EnlaceValido(e) && e.alias.None?
    ensures EnlaceAlInicio(TextoEnlace(e) + resto) == Some((e.destino, |e.destino| + 4))
  {
    var t := e.destino;
    var s := TextoEnlace(e) + resto;
    DestinoAlInicio(e, resto);
    assert s[2 + |t|] == ']' && s[3 + |t|] == ']';
  }

  lemma EnlaceConAliasAlInicio(e: Enlace, resto: string)
    requires EnlaceValido(e) && e.alias.Some?
    ensures EnlaceAlInicio(TextoEnlace(e) + resto)
         == Some((e.destino, |e.destino| + |e.alias.value| + 5))
  {
    var t := e.destino;
    var a := e.alias.value;
    var s := TextoEnlace(e) + resto;
    DestinoAlInicio(e, resto);
    var j := 2 + |t|;
    assert s[j] == '|';
    var k := Text.RunEnd(s, j + 1, EnAlias);
    assert forall m :: 0 <= m < |a| ==> s[j + 1 + m] == a[m];
    assert k == j + 1 + |a| by {
      assert !EnAlias(s[j + 1 + |a|]);
    }
    assert s[k + 1] == ']';
  }

  /** Text without an opening bracket contributes no link. */
  lemma {:induction false} SinCorcheteSinEnlaces(p: string, resto: string)
    requires forall k :: 0 <= k < |p| ==> p[k] != '['
    ensures Enlaces(p + resto) == Enlaces(resto)
    decreases |p|
  {
    if |p| > 0 {
      var s := p + resto;
      assert EnlaceAlInicio(s) == None;
      assert Enlaces(s) == Enlaces(s[1..]);
      assert s[1..] == p[1..] + resto;
      SinCorcheteSinEnlaces(p[1..], resto);
    } else {
      assert p + resto == resto;
    }
  }

  /** A note written as prose without brackets, each piece followed by a
      link. */
  function Documento(partes: seq<(string, Enlace)>): string {
    if |partes| == 0 then ""
    else partes[0].0 + TextoEnlace(partes[0].1) + Documento(partes[1..])
  }

  predicate PartesValidas(partes: seq<(string, Enlace)>) {
    forall i :: 0 <= i < |partes| ==>
      EnlaceValido(partes[i].1) && forall k :: 0 <= k < |partes[i].0| ==> partes[i].0[k] != '['
  }

  /** The targets written, in order. */
  function Destinos(partes: seq<(string, Enlace)>): seq<string> {
    seq(|partes|, i requires 0 <= i < |partes| => partes[i].1.destino)
  }

  /** The link scanner reads back exactly the targets written, in order. */
  lemma {:induction false} EnlacesRoundTrip(partes: seq<(string, Enlace)>)
    requires PartesValidas(partes)
    ensures Enlaces(Documento(partes)) == Destinos(partes)
  {
    if |partes| > 0 {
      var p, e := partes[0].0, partes[0].1;
      var resto := Documento(partes[1..]);
      PartesCola(partes);
      EnlacesRoundTrip(partes[1..]);
      EnlacePrefijado(p, e, resto);
    }
  }

  /** Splitting off the first part keeps the rest valid. */
  lemma PartesCola(partes: seq<(string, Enlace)>)
    requires PartesValidas(partes) && |partes| > 0
    ensures PartesValidas(partes[1..])
    ensures EnlaceValido(partes[0].1)
    ensures forall k :: 0 <= k < |partes[0].0| ==> partes[0].0[k] != '['
    ensures Documento(partes) == partes[0].0 + (TextoEnlace(partes[0].1) + Documento(partes[1..]))
    ensures Destinos(partes) == [partes[0].1.destino] + Destinos(partes[1..])
  {
    ColaValida(partes);
    var p, t, r := partes[0].0, TextoEnlace(partes[0].1), Documento(partes[1..]);
    assert p + t + r == p + (t + r);
    DestinosCola(partes);
  }

  lemma ColaValida(partes: seq<(string, Enlace)>)
    requires PartesValidas(partes) && |partes| > 0
    ensures PartesValidas(partes[1..])
  {
    forall i | 0 <= i < |partes| - 1
      ensures EnlaceValido(partes[1..][i].1)
      ensures forall k :: 0 <= k < |partes[1..][i].0| ==> partes[1..][i].0[k] != '['
    {
      assert partes[1..][i] == partes[i + 1];
    }
  }

  lemma DestinosCola(partes: seq<(string, Enlace)>)
    requires |partes| > 0
    ensures Destinos(partes) == [partes[0].1.destino] + Destinos(partes[1..])
  {
    assert forall i :: 0 <= i < |partes| - 1 ==> partes[1..][i] == partes[i + 1];
  }

  /** One step of the round trip: text without `[` and then a link. */
  lemma EnlacePrefijado(p: string, e: Enlace, resto: string)
    requires EnlaceValido(e) && forall k :: 0 <= k < |p| ==> p[k] != '['
    ensures Enlaces(p + (TextoEnlace(e) + resto)) == [e.destino] + Enlaces(resto)
  {
    SinCorcheteSinEnlaces(p, TextoEnlace(e) + resto);
    EnlaceLeido(e, resto);
  }

  // ---------------------------------------------------------------------------
  // Tags: `#([a-zA-Z0-9_-]+)`
  // ---------------------------------------------------------------------------

  function EnTag(c: char): bool {
    ('a' <= c <= 'z') || ('A' <= c <= 'Z') || ('0' <= c <= '9') || c == '_' || c == '-'
  }

  predicate EsTag(t: string) {
    |t| > 0 && forall k :: 0 <= k < |t| ==> EnTag(t[k])
  }

  /** `re.findall` of the tag pattern: after each `#`, the longest run of
      tag characters, when there is one. */
  function Tags(s: string): (r: seq<string>)
    ensures forall i :: 0 <= i < |r| ==> EsTag(r[i])
    decreases |s|
  {
    if |s| == 0 then []
    else if s[0] == '#' then
      var j := Text.RunEnd(s, 1, EnTag);
      if j > 1 then [s[1..j]] + Tags(s[j..]) else Tags(s[1..])
    else Tags(s[1..])
  }

  /** `_extraer_tags`: the distinct tags. */
  function ExtraerTags(s: string): (r: seq<string>)
    ensures forall t :: t in r <==> t in Tags(s)
    ensures forall i, j :: 0 <= i < j < |r| ==> r[i] != r[j]
    ensures forall i :: 0 <= i < |r| ==> EsTag(r[i])
  {
    Seqs.Dedup(Tags(s))
  }

  /** A tag is read whole: the run stops only where a non-tag character or
      the end of the text follows. */
  lemma TagLeido(t: string, resto: string)
    requires EsTag(t)
    requires |resto| > 0 ==> !EnTag(resto[0])
    ensures Tags("#" + t + resto) == [t] + Tags(resto)
  {
    var s := "#" + t + resto;
    assert forall k :: 0 <= k < |t| ==> s[1 + k] == t[k];
    assert Text.RunEnd(s, 1, EnTag) == 1 + |t| by {
      if |resto| > 0 {
        assert s[1 + |t|] == resto[0];
      }
    }
    assert s[1..1 + |t|] == t;
    assert s[1 + |t|..] == resto;
  }

  /** Text without `#` contributes no tag. */
  lemma {:induction false} SinAlmohadillaSinTags(p: string, resto: string)
    requires forall k :: 0 <= k < |p| ==> p[k] != '#'
    ensures Tags(p + resto) == Tags(resto)
    decreases |p|
  {
    if |p| > 0 {
      var s := p + resto;
      assert s[0] != '#';
      assert Tags(s) == Tags(s[1..]);
      assert s[1..] == p[1..] + resto;
      SinAlmohadillaSinTags(p[1..], resto);
    } else {
      assert p + resto == resto;
    }
  }

  /** A note written as prose without `#`, each piece followed by a tag and
      a space. */
  function DocumentoTags(partes: seq<(string, string)>): string {
    if |partes| == 0 then ""
    else partes[0].0 + "#" + partes[0].1 + " " + DocumentoTags(partes[1..])
  }

  predicate PartesTagsValidas(partes: seq<(string, string)>) {
    forall i :: 0 <= i < |partes| ==>
      EsTag(partes[i].1) && forall k :: 0 <= k < |partes[i].0| ==> partes[i].0[k] != '#'
  }

  /** The tags written, in order. */
  function TagsEscritos(partes: seq<(string, string)>): seq<string> {
    seq(|partes|, i requires 0 <= i < |partes| => partes[i].1)
  }

  /** The tag scanner reads back exactly the tags written, in order. */
  lemma {:induction false} TagsRoundTrip(partes: seq<(string, string)>)
    requires PartesTagsValidas(partes)
    ensures Tags(DocumentoTags(partes)) == TagsEscritos(partes)
  {
    if |partes| > 0 {
      var p, t := partes[0].0, partes[0].1;
      var resto := DocumentoTags(partes[1..]);
      assert PartesTagsValidas(partes[1..]) by {
        assert forall i :: 0 <= i < |partes| - 1 ==> partes[1..][i] == partes[i + 1];
      }
      TagsRoundTrip(partes[1..]);
      assert DocumentoTags(partes) == p + ("#" + t + (" " + resto));
      SinAlmohadillaSinTags(p, "#" + t + (" " + resto));
      TagLeido(t, " " + resto);
      assert (" " + resto)[1..] == resto;
      assert Tags(" " + resto) == Tags(resto);
    }
  }

  // ---------------------------------------------------------------------------
  // Title: `re.search(r'^#\s+(.+)$', contenido, re.MULTILINE)`, stripped
  // ---------------------------------------------------------------------------

  function EsEspacio(c: char): bool { Text.IsSpace(c) }
  function NoSalto(c: char): bool { c != '\n' }

  /** A `#` at the start of a line. */
  predicate Almohadilla(s: string, p: nat) {
    p < |s| && s[p] == '#' && (p == 0 || s[p - 1] == '\n')
  }

  /** The stripped title of a heading match at `p`. `\s+` is greedy and may
      cross line ends; `.+` then runs to the end of its line. When the
      whitespace reaches the end of the text, the regex engine gives back
      whitespace until `.+` can take one character that is not a line end,
      so a heading of blanks yields the empty title. */
  function TituloEn(s: string, p: nat): (r: Option<string>)
    requires Almohadilla(s, p)
    ensures r.Some? && |r.value| > 0 ==> !Text.IsSpace(r.value[0])
  {
    var w := Text.RunEnd(s, p + 1, EsEspacio);
    if w == p + 1 then None
    else if w < |s| then Some(Text.Strip(s[w..Text.RunEnd(s, w, NoSalto)]))
    else if AlgunoNoSalto(s, p + 2, w) then Some("")
    else None
  }

  /** Some character in `s[a..b]` is not a line end. */
  predicate AlgunoNoSalto(s: string, a: nat, b: nat)
    requires b <= |s|
    decreases b - a
  {
    a < b && (s[a] != '\n' || AlgunoNoSalto(s, a + 1, b))
  }

  predicate Encabezado(s: string, p: nat) {
    Almohadilla(s, p) && TituloEn(s, p).Some?
  }

  /** Which positions of `s` start a heading. */
  function Marcas(s: string): (bs: seq<bool>)
    ensures |bs| == |s|
    ensures forall q :: 0 <= q < |s| ==> bs[q] == Encabezado(s, q)
  {
    seq(|s|, q requires 0 <= q < |s| => Encabezado(s, q))
  }

  /** `_extraer_titulo`: the title of the first heading, else the file name. */
  function Titulo(s: string, archivo: string): (r: string)
    ensures (forall q :: 0 <= q < |s| ==> !Encabezado(s, q)) ==> r == archivo
    ensures (exists q :: 0 <= q < |s| && Encabezado(s, q)) ==>
      exists q :: 0 <= q < |s| && Encabezado(s, q) && TituloEn(s, q).value == r
        && forall q' :: 0 <= q' < q ==> !Encabezado(s, q')
  {
    var bs := Marcas(s);
    match Seqs.FirstTrue(bs, 0)
    case None => archivo
    case Some(q) => assert bs[q]; TituloEn(s, q).value
  }

  /** A note that opens with `# ` and a one-line title is titled by it,
      stripped. */
  lemma TituloDeEncabezado(t: string, resto: string, archivo: string)
    requires |t| > 0 && !Text.IsSpace(t[0])
    requires forall k :: 0 <= k < |t| ==> t[k] != '\n'
    requires |resto| > 0 ==> resto[0] == '\n'
    ensures Titulo("# " + t + resto, archivo) == Text.Strip(t)
  {
    var s := "# " + t + resto;
    assert forall k :: 0 <= k < |t| ==> s[2 + k] == t[k];
    assert Almohadilla(s, 0);
    assert Text.RunEnd(s, 1, EsEspacio) == 2 by {
      assert EsEspacio(s[1]) && !EsEspacio(s[2]);
      assert Text.RunEnd(s, 2, EsEspacio) == 2;
    }
    assert Text.RunEnd(s, 2, NoSalto) == 2 + |t| by {
      if |resto| > 0 {
        assert s[2 + |t|] == resto[0];
      }
    }
    assert s[2..2 + |t|] == t;
    assert Encabezado(s, 0);
  }

  /** Text without `#` has no heading, and the file name is the title. */
  lemma TituloSinEncabezado(s: string, archivo: string)
    requires forall k :: 0 <= k < |s| ==> s[k] != '#'
    ensures Titulo(s, archivo) == archivo
  {
  }

  /** A heading made only of blanks is matched, and gives the empty title
      rather than the file name. */
  lemma TituloEnBlanco(archivo: string)
    ensures Titulo("#  ", archivo) == ""
  {
    var s := "#  ";
    assert Text.RunEnd(s, 1, EsEspacio) == 3 by {
      assert EsEspacio(s[1]) && EsEspacio(s[2]);
      assert Text.RunEnd(s, 3, EsEspacio) == 3;
      assert Text.RunEnd(s, 2, EsEspacio) == 3;
    }
    assert s[2] != '\n';
    assert Encabezado(s, 0);
  }

  // ---------------------------------------------------------------------------
  // Notes and the link graph
  // ---------------------------------------------------------------------------

  /** `NotaObsidian`, without its metadata and dates. */
  datatype Nota = Nota(filepath: string, titulo: string, contenido: string, enlaces: seq<string>, tags: seq<string>, dimension: string)

  /** `parsear_nota` on a file already read: `archivo` is the file's stem,
      `metadata` the frontmatter's `dimension` entry if any, and `orden` the
      iteration order of the tag keyword set. */
  function ParsearNota(filepath: string, archivo: string, contenido: string, metadata: Option<string>, orden: seq<string>): (n: Nota)
    requires OrdenDeEtiquetas(orden)
    ensures n.filepath == filepath && n.contenido == contenido
    ensures n.titulo == Titulo(contenido, archivo)
    ensures forall t :: t in n.enlaces <==> t in Enlaces(contenido)
    ensures forall t :: t in n.tags <==> t in Tags(contenido)
    ensures n.dimension == InferirDimension(metadata, n.tags, filepath, orden)
  {
    var tags := ExtraerTags(contenido);
    Nota(filepath, Titulo(contenido, archivo), contenido, ExtraerEnlaces(contenido), tags,
      InferirDimension(metadata, tags, filepath, orden))
  }

  type Grafo = Assoc.Dict<string, seq<string>>

  function ParesTitulo(ns: seq<Nota>): seq<(string, string)> {
    seq(|ns|, i requires 0 <= i < |ns| => (ns[i].titulo, ns[i].filepath))
  }

  /** `titulo_a_filepath`: a dict comprehension, so the last note with a
      given title wins. */
  function MapaTitulos(ns: seq<Nota>): (m: Assoc.Dict<string, string>)
    ensures Assoc.DistinctKeys(m)
  {
    Assoc.FromPairs(ParesTitulo(ns))
  }

  /** A title is resolved to the path of the last note carrying it. */
  lemma MapaTitulosSpec(ns: seq<Nota>, i: nat)
    requires i < |ns|
    requires forall j :: i < j < |ns| ==> ns[j].titulo != ns[i].titulo
    ensures Assoc.Get(MapaTitulos(ns), ns[i].titulo) == Some(ns[i].filepath)
  {
    Assoc.FromPairsLast(ParesTitulo(ns), i);
  }

  /** A link that is no note's title does not resolve. */
  lemma MapaTitulosSinNota(ns: seq<Nota>, t: string)
    requires forall j :: 0 <= j < |ns| ==> ns[j].titulo != t
    ensures Assoc.Get(MapaTitulos(ns), t) == None
  {
    Assoc.FromPairsMissing(ParesTitulo(ns), t);
  }

  /** `enlaces_reales`: the links that resolve, replaced by their paths, in
      order. */
  function EnlacesReales(enlaces: seq<string>, mapa: Assoc.Dict<string, string>): (r: seq<string>)
    ensures |r| <= |enlaces|
    ensures forall fp :: fp in r <==> exists e :: e in enlaces && Assoc.Get(mapa, e) == Some(fp)
  {
    if |enlaces| == 0 then []
    else
      var resto := EnlacesReales(enlaces[1..], mapa);
      assert forall e :: e in enlaces <==> e == enlaces[0] || e in enlaces[1..];
      match Assoc.Get(mapa, enlaces[0])
      case Some(fp) => [fp] + resto
      case None => resto
  }

  function ParesGrafo(ns: seq<Nota>): seq<(string, seq<string>)> {
    var mapa := MapaTitulos(ns);
    seq(|ns|, i requires 0 <= i < |ns| => (ns[i].filepath, EnlacesReales(ns[i].enlaces, mapa)))
  }

  /** `obtener_grafo_enlaces`: each note's path mapped to its resolved links. */
  function ObtenerGrafo(ns: seq<Nota>): (g: Grafo)
    ensures Assoc.DistinctKeys(g)
  {
    Assoc.FromPairs(ParesGrafo(ns))
  }

  predicate RutasDistintas(ns: seq<Nota>) {
    forall i, j :: 0 <= i < j < |ns| ==> ns[i].filepath != ns[j].filepath
  }

  /** With one note per path, the graph has one entry per note, in order. */
  lemma GrafoDeRutasDistintas(ns: seq<Nota>)
    requires RutasDistintas(ns)
    ensures ObtenerGrafo(ns) == ParesGrafo(ns)
  {
    Assoc.FromPairsDistinct(ParesGrafo(ns));
  }

  /** `obtener_backlinks`: the sources, in graph order, whose resolved links
      include `fp`. */
  function Backlinks(fp: string, g: Grafo): (r: seq<string>)
    ensures |r| <= |g|
    ensures forall x :: x in r <==> exists i :: 0 <= i < |g| && g[i].0 == x && fp in g[i].1
  {
    if |g| == 0 then []
    else
      var resto := Backlinks(fp, g[1..]);
      assert forall i :: 0 <= i < |g| - 1 ==> g[1..][i] == g[i + 1];
      if fp in g[0].1 then [g[0].0] + resto else resto
  }

  function Conexiones(n: Nota, g: Grafo): nat {
    |n.enlaces| + |Backlinks(n.filepath, g)|
  }

  /** The test `identificar_hubs` filters by. */
  function EsHub(g: Grafo, minimo: int): Nota -> bool {
    (n: Nota) => Conexiones(n, g) >= minimo
  }

  /** The key `identificar_hubs` sorts by. */
  function PorConexiones(g: Grafo): Nota -> real {
    (n: Nota) => Conexiones(n, g) as real
  }

  /** `identificar_hubs`: notes with at least `minimo` links in and out,
      most connected first. */
  function Hubs(ns: seq<Nota>, minimo: int): (r: seq<Nota>)
    ensures forall n :: n in r <==> n in ns && Conexiones(n, ObtenerGrafo(ns)) >= minimo
    ensures forall i, j :: 0 <= i < j < |r| ==>
      Conexiones(r[i], ObtenerGrafo(ns)) >= Conexiones(r[j], ObtenerGrafo(ns))
    ensures multiset(r) == multiset(Seqs.Filter(ns, EsHub(ObtenerGrafo(ns), minimo)))
  {
    var g := ObtenerGrafo(ns);
    var f := Seqs.Filter(ns, EsHub(g, minimo));
    Seqs.SortDescSpec(f, PorConexiones(g));
    Seqs.SortDescSameElements(f, PorConexiones(g));
    Seqs.SortDescPermutes(f, PorConexiones(g));
    Seqs.SortDesc(f, PorConexiones(g))
  }

  /** Hubs equally connected keep their input order, as Python's stable
      `sorted` keeps them: the `i`-th hub is the `p[i]`-th note kept by the
      filter, and `p` grows across ties. */
  lemma HubsEstables(ns: seq<Nota>, minimo: int)
    ensures var g := ObtenerGrafo(ns);
      var f := Seqs.Filter(ns, EsHub(g, minimo));
      var r, p := Hubs(ns, minimo), Seqs.SortPerm(f, PorConexiones(g));
      && |p| == |r| == |f|
      && (forall i :: 0 <= i < |r| ==> p[i] < |f| && r[i] == f[p[i]])
      && (forall i, j :: 0 <= i < j < |r| && Conexiones(r[i], g) == Conexiones(r[j], g) ==> p[i] < p[j])
  {
    var g := ObtenerGrafo(ns);
    var f := Seqs.Filter(ns, EsHub(g, minimo));
    Seqs.SortDescSpec(f, PorConexiones(g));
  }

  predicate EsHuerfana(n: Nota, g: Grafo) {
    |n.enlaces| == 0 && |Backlinks(n.filepath, g)| == 0
  }

  /** `identificar_orphans`: notes with no links either way, in input order. */
  function Huerfanas(ns: seq<Nota>): (r: seq<Nota>)
    ensures forall n :: n in r <==> n in ns && EsHuerfana(n, ObtenerGrafo(ns))
    ensures |r| <= |ns|
    ensures Seqs.Subsequence(r, ns)
    ensures forall n {:trigger Seqs.Count(r, n)} :: Seqs.Count(r, n) == if EsHuerfana(n, ObtenerGrafo(ns)) then Seqs.Count(ns, n) else 0
  {
    var g := ObtenerGrafo(ns);
    Seqs.FilterOrder(ns, (n: Nota) => EsHuerfana(n, g));
    Seqs.Filter(ns, (n: Nota) => EsHuerfana(n, g))
  }

  /** With one note per path, a path has no backlinks exactly when no
      note's resolved links point to it. */
  lemma SinBacklinks(ns: seq<Nota>, fp: string)
    requires RutasDistintas(ns)
    ensures |Backlinks(fp, ObtenerGrafo(ns))| == 0 <==>
      forall i :: 0 <= i < |ns| ==> fp !in EnlacesReales(ns[i].enlaces, MapaTitulos(ns))
  {
    GrafoDeRutasDistintas(ns);
    var g := ObtenerGrafo(ns);
    var b := Backlinks(fp, g);
    assert forall i :: 0 <= i < |ns| ==> g[i].1 == EnlacesReales(ns[i].enlaces, MapaTitulos(ns));
    if |b| > 0 {
      assert b[0] in b;
    } else {
      forall i | 0 <= i < |ns|
        ensures fp !in EnlacesReales(ns[i].enlaces, MapaTitulos(ns))
      {
        assert g[i].0 !in b;
      }
    }
  }

  /** With one note per path, an orphan is a note with no links of its own
      that no note's resolved links point to. */
  lemma HuerfanasSpec(ns: seq<Nota>, n: Nota)
    requires RutasDistintas(ns)
    ensures n in Huerfanas(ns) <==>
      n in ns && |n.enlaces| == 0
      && forall i :: 0 <= i < |ns| ==> n.filepath !in EnlacesReales(ns[i].enlaces, MapaTitulos(ns))
  {
    SinBacklinks(ns, n.filepath);
  }

  /** A link to the last note with a given title makes both ends
      non-orphans. */
  lemma EnlazadaNoHuerfana(ns: seq<Nota>, a: nat, b: nat)
    requires RutasDistintas(ns)
    requires a < |ns| && b < |ns|
    requires ns[b].titulo in ns[a].enlaces
    requires forall j :: b < j < |ns| ==> ns[j].titulo != ns[b].titulo
    ensures ns[a] !in Huerfanas(ns) && ns[b] !in Huerfanas(ns)
    ensures ns[a].filepath in Backlinks(ns[b].filepath, ObtenerGrafo(ns))
  {
    MapaTitulosSpec(ns, b);
    var mapa := MapaTitulos(ns);
    assert ns[b].filepath in EnlacesReales(ns[a].enlaces, mapa);
    HuerfanasSpec(ns, ns[b]);
    GrafoDeRutasDistintas(ns);
    assert ObtenerGrafo(ns)[a].1 == EnlacesReales(ns[a].enlaces, mapa);
  }

  // ---------------------------------------------------------------------------
  // Dimensions
  // ---------------------------------------------------------------------------

  /** The seven dimensions, in the order of the keyword table. */
  datatype Dimension = Finanzas | Biologia | Conocimiento | Desarrollo | Relaciones | Creatividad | Espiritualidad

  const Dimensiones: seq<Dimension> :=
    [Finanzas, Biologia, Conocimiento, Desarrollo, Relaciones, Creatividad, Espiritualidad]

  function Nombre(d: Dimension): string {
    match d
    case Finanzas => "finanzas"
    case Biologia => "biologia"
    case Conocimiento => "conocimiento"
    case Desarrollo => "desarrollo"
    case Relaciones => "relaciones"
    case Creatividad => "creatividad"
    case Espiritualidad => "espiritualidad"
  }

  const Gris := "#6B7280"

  function ColorDe(d: Dimension): string {
    match d
    case Finanzas => "#DC2626"
    case Biologia => "#F97316"
    case Conocimiento => "#EAB308"
    case Desarrollo => "#22C55E"
    case Relaciones => "#3B82F6"
    case Creatividad => "#8B5CF6"
    case Espiritualidad => "#A855F7"
  }

  /** `obtener_color`: the colour of a named dimension, grey otherwise. */
  function Color(dimension: string): (r: string)
    ensures (forall d: Dimension :: Nombre(d) != dimension) ==> r == Gris
    ensures forall d: Dimension :: Nombre(d) == dimension ==> r == ColorDe(d)
  {
    if dimension == "finanzas" then assert Nombre(Finanzas) == dimension; ColorDe(Finanzas)
    else if dimension == "biologia" then assert Nombre(Biologia) == dimension; ColorDe(Biologia)
    else if dimension == "conocimiento" then assert Nombre(Conocimiento) == dimension; ColorDe(Conocimiento)
    else if dimension == "desarrollo" then assert Nombre(Desarrollo) == dimension; ColorDe(Desarrollo)
    else if dimension == "relaciones" then assert Nombre(Relaciones) == dimension; ColorDe(Relaciones)
    else if dimension == "creatividad" then assert Nombre(Creatividad) == dimension; ColorDe(Creatividad)
    else if dimension == "espiritualidad" then assert Nombre(Espiritualidad) == dimension; ColorDe(Espiritualidad)
    else Gris
  }

  /** Every dimension has its own colour, and none is the fallback grey. */
  lemma ColoresDistintos(d1: Dimension, d2: Dimension)
    ensures Color(Nombre(d1)) != Gris
    ensures d1 != d2 ==> Color(Nombre(d1)) != Color(Nombre(d2))
  {
  }

  /** The keyword table of `asignar_dimension_automatica`. */
  function Palabras(d: Dimension): seq<string> {
    match d
    case Finanzas => ["dinero", "euros", "dólares", "ingreso", "gasto", "inversión", "ahorro", "presupuesto", "factura", "pago"]
    case Biologia => ["salud", "ejercicio", "dormir", "comida", "energía", "cuerpo", "médico", "vitamina", "deporte", "fitness"]
    case Conocimiento => ["aprender", "libro", "curso", "estudio", "lectura", "conocimiento", "investigación", "educación"]
    case Desarrollo => ["proyecto", "código", "desarrollo", "crear", "build", "feature", "app", "software", "programar"]
    case Relaciones => ["persona", "familia", "amigo", "llamada", "reunión", "conversación", "networking", "equipo"]
    case Creatividad => ["diseño", "arte", "música", "escritura", "creativo", "inspiración", "belleza", "estética"]
    case Espiritualidad => ["meditación", "filosofía", "propósito", "valores", "significado", "transcendencia", "consciencia"]
  }

  /** Two points per occurrence of each keyword in the text. */
  function PuntosTexto(texto: string, palabras: seq<string>): nat {
    if |palabras| == 0 then 0
    else 2 * Text.CountOcc(texto, palabras[0]) + PuntosTexto(texto, palabras[1..])
  }

  /** Keywords that do not occur score nothing. */
  lemma {:induction false} PuntosTextoCero(texto: string, palabras: seq<string>)
    requires forall k :: k in palabras ==> |k| > 0 && !Text.Contains(texto, k)
    ensures PuntosTexto(texto, palabras) == 0
  {
    if |palabras| > 0 {
      Text.CountOccPositiveIff(texto, palabras[0]);
      PuntosTextoCero(texto, palabras[1..]);
    }
  }

  /** Five points per tag containing some keyword. */
  function PuntosTags(tags: seq<string>, palabras: seq<string>): (r: nat)
    ensures r <= 5 * |tags| && r % 5 == 0
    ensures r == 0 <==> forall i :: 0 <= i < |tags| ==> !Text.ContainsAny(tags[i], palabras)
  {
    if |tags| == 0 then 0
    else
      var resto := PuntosTags(tags[1..], palabras);
      assert forall i :: 0 <= i < |tags| - 1 ==> tags[1..][i] == tags[i + 1];
      if Text.ContainsAny(tags[0], palabras) then
        assert 5 + resto == 5 * (resto / 5 + 1);
        5 + resto
      else resto
  }

  /** The score of a dimension on lower-cased text and tags. */
  function Puntos(texto: string, tags: seq<string>, d: Dimension): nat {
    PuntosTexto(texto, Palabras(d)) + PuntosTags(tags, Palabras(d))
  }

  function Minusculas(tags: seq<string>): (r: seq<string>)
    ensures |r| == |tags|
    ensures forall i :: 0 <= i < |tags| ==> r[i] == Text.Lower(tags[i])
  {
    seq(|tags|, i requires 0 <= i < |tags| => Text.Lower(tags[i]))
  }

  function TablaPuntos(texto: string, tags: seq<string>): (r: seq<int>)
    ensures |r| == |Dimensiones|
    ensures forall i :: 0 <= i < |r| ==> r[i] == Puntos(texto, tags, Dimensiones[i])
  {
    seq(|Dimensiones|, i requires 0 <= i < |Dimensiones| => Puntos(texto, tags, Dimensiones[i]) as int)
  }

  function Posicion(d: Dimension): (i: nat)
    ensures i < |Dimensiones| && Dimensiones[i] == d
  {
    match d
    case Finanzas => 0
    case Biologia => 1
    case Conocimiento => 2
    case Desarrollo => 3
    case Relaciones => 4
    case Creatividad => 5
    case Espiritualidad => 6
  }

  /** The choice made on a score table in table order: the first best
      score when it is positive, else `conocimiento`. */
  function Eleccion(tabla: seq<int>): (r: Dimension)
    requires |tabla| == |Dimensiones|
    requires forall i :: 0 <= i < |tabla| ==> 0 <= tabla[i]
    ensures forall d :: tabla[Posicion(d)] <= tabla[Posicion(r)]
    ensures (exists d :: tabla[Posicion(d)] > 0) ==>
      forall d :: Posicion(d) < Posicion(r) ==> tabla[Posicion(d)] < tabla[Posicion(r)]
    ensures (forall d :: tabla[Posicion(d)] == 0) ==> r == Conocimiento
  {
    var k := Seqs.ArgMax(tabla);
    assert forall i :: 0 <= i < |Dimensiones| ==> Posicion(Dimensiones[i]) == i;
    if tabla[k] > 0 then Dimensiones[k] else Conocimiento
  }

  /** `asignar_dimension_automatica`: the best-scoring dimension on the
      lower-cased text and tags, the first in table order among equals,
      and `conocimiento` when nothing scores. */
  function AsignarDimension(texto: string, tags: seq<string>): (r: Dimension)
    ensures forall d :: Puntos(Text.Lower(texto), Minusculas(tags), d) <= Puntos(Text.Lower(texto), Minusculas(tags), r)
    ensures (exists d :: Puntos(Text.Lower(texto), Minusculas(tags), d) > 0) ==>
      forall d :: Posicion(d) < Posicion(r) ==>
        Puntos(Text.Lower(texto), Minusculas(tags), d) < Puntos(Text.Lower(texto), Minusculas(tags), r)
    ensures (forall d :: Puntos(Text.Lower(texto), Minusculas(tags), d) == 0) ==> r == Conocimiento
  {
    var t, ts := Text.Lower(texto), Minusculas(tags);
    var tabla := TablaPuntos(t, ts);
    assert forall d :: Puntos(t, ts, d) == tabla[Posicion(d)];
    Eleccion(tabla)
  }

  lemma PalabrasNoVacias(d: Dimension)
    ensures forall k :: k in Palabras(d) ==> |k| > 0
  {
  }

  /** A dimension none of whose keywords is mentioned scores nothing. */
  lemma PuntosCero(t: string, ts: seq<string>, d: Dimension)
    requires forall k :: k in Palabras(d) ==> !Text.Contains(t, k)
    requires forall i :: 0 <= i < |ts| ==> !Text.ContainsAny(ts[i], Palabras(d))
    ensures Puntos(t, ts, d) == 0
  {
    var ps := Palabras(d);
    PalabrasNoVacias(d);
    PuntosTextoCero(t, ps);
  }

  /** A text and tags that mention no keyword fall back to `conocimiento`. */
  lemma SinPalabrasConocimiento(texto: string, tags: seq<string>)
    requires forall d: Dimension, k :: k in Palabras(d) ==> !Text.Contains(Text.Lower(texto), k)
    requires forall d: Dimension, i :: 0 <= i < |tags| ==> !Text.ContainsAny(Text.Lower(tags[i]), Palabras(d))
    ensures AsignarDimension(texto, tags) == Conocimiento
  {
    var t, ts := Text.Lower(texto), Minusculas(tags);
    forall d: Dimension
      ensures Puntos(t, ts, d) == 0
    {
      PuntosCero(t, ts, d);
    }
  }

  // ---------------------------------------------------------------------------
  // Dimension of a note read from its tags or its folder (`_inferir_dimension`)
  // ---------------------------------------------------------------------------

  /** The tag keywords, each with the dimension its branch returns. */
  function DimensionDeEtiqueta(k: string): Option<Dimension> {
    if k in ["finanzas", "dinero", "ingresos", "gastos", "inversiones"] then Some(Finanzas)
    else if k in ["biologia", "salud", "energia", "ejercicio", "alimentacion"] then Some(Biologia)
    else if k in ["conocimiento", "aprendizaje", "libros", "cursos", "estudio"] then Some(Conocimiento)
    else if k in ["desarrollo", "proyectos", "codigo", "creacion", "build"] then Some(Desarrollo)
    else if k in ["relaciones", "familia", "amigos", "comunidad", "networking"] then Some(Relaciones)
    else if k in ["creatividad", "arte", "musica", "escritura", "diseño"] then Some(Creatividad)
    else if k in ["espiritualidad", "meditacion", "filosofia", "proposito"] then Some(Espiritualidad)
    else None
  }

  /** The tag keywords of `_inferir_dimension`, in the order written. */
  const Etiquetas: seq<string> := [
    "finanzas", "dinero", "ingresos", "gastos", "inversiones",
    "biologia", "salud", "energia", "ejercicio", "alimentacion",
    "conocimiento", "aprendizaje", "libros", "cursos", "estudio",
    "desarrollo", "proyectos", "codigo", "creacion", "build",
    "relaciones", "familia", "amigos", "comunidad", "networking",
    "creatividad", "arte", "musica", "escritura", "diseño",
    "espiritualidad", "meditacion", "filosofia", "proposito"]

  /** An iteration order of the keyword set: it lists every keyword, and
      nothing else. */
  predicate OrdenDeEtiquetas(orden: seq<string>) {
    && (forall k :: k in orden ==> DimensionDeEtiqueta(k).Some?)
    && (forall k :: k in Etiquetas ==> k in orden)
  }

  /** The loop over the tags: the first tag containing a keyword decides,
      through the first keyword of `orden` it contains. */
  function PorTags(tags: seq<string>, orden: seq<string>): (r: Option<Dimension>)
    requires OrdenDeEtiquetas(orden)
    ensures r.None? <==> forall i :: 0 <= i < |tags| ==> !Text.ContainsAny(Text.Lower(tags[i]), orden)
    ensures r.Some? ==> exists i, k :: (0 <= i < |tags| && k in orden && Text.Contains(Text.Lower(tags[i]), k)
      && DimensionDeEtiqueta(k) == r)
  {
    if |tags| == 0 then None
    else
      assert forall i :: 0 <= i < |tags| - 1 ==> tags[1..][i] == tags[i + 1];
      match Text.FirstContained(Text.Lower(tags[0]), orden)
      case Some(k) => DimensionDeEtiqueta(k)
      case None => PorTags(tags[1..], orden)
  }

  /** `_inferir_desde_carpeta`: the first folder of the table named in the
      path. */
  function DesdeCarpeta(filepath: string): (r: Dimension)
    ensures (forall c :: c in ["00-Pilares", "10-Dominios", "20-Proyectos", "30-Recursos", "40-Journal", "Estados-Cero"] ==>
      !Text.Contains(filepath, c)) ==> r == Conocimiento
  {
    if Text.Contains(filepath, "00-Pilares") then Espiritualidad
    else if Text.Contains(filepath, "10-Dominios") then Desarrollo
    else if Text.Contains(filepath, "20-Proyectos") then Desarrollo
    else if Text.Contains(filepath, "30-Recursos") then Conocimiento
    else if Text.Contains(filepath, "40-Journal") then Biologia
    else if Text.Contains(filepath, "Estados-Cero") then Espiritualidad
    else Conocimiento
  }

  /** `_inferir_dimension`: the metadata's dimension, else the tags', else
      the folder's when the path mentions `Finanzas` or `10-Dominios`, else
      `conocimiento`. `orden` is the iteration order of the keyword set. */
  function InferirDimension(metadata: Option<string>, tags: seq<string>, filepath: string, orden: seq<string>): (r: string)
    requires OrdenDeEtiquetas(orden)
    ensures metadata.Some? ==> r == metadata.value
    ensures metadata.None? ==> exists d :: r == Nombre(d)
    ensures (metadata.None? && PorTags(tags, orden).None?
      && !Text.Contains(filepath, "Finanzas") && !Text.Contains(filepath, "10-Dominios")) ==> r == "conocimiento"
  {
    match metadata
    case Some(d) => d
    case None =>
      match PorTags(tags, orden)
      case Some(d) => Nombre(d)
      case None =>
        if Text.Contains(filepath, "Finanzas") || Text.Contains(filepath, "10-Dominios") then Nombre(DesdeCarpeta(filepath))
        else assert Nombre(Conocimiento) == "conocimiento"; "conocimiento"
  }

  /** No tag holds keywords of two dimensions. */
  predicate SinMezcla(tags: seq<string>, orden: seq<string>) {
    forall i, k1, k2 :: (0 <= i < |tags| && k1 in orden && k2 in orden
      && Text.Contains(Text.Lower(tags[i]), k1) && Text.Contains(Text.Lower(tags[i]), k2)) ==>
        DimensionDeEtiqueta(k1) == DimensionDeEtiqueta(k2)
  }

  lemma SinMezclaCola(tags: seq<string>, orden: seq<string>)
    requires |tags| > 0 && SinMezcla(tags, orden)
    ensures SinMezcla(tags[1..], orden)
  {
    forall i, k1, k2 | 0 <= i < |tags| - 1 && k1 in orden && k2 in orden
      && Text.Contains(Text.Lower(tags[1..][i]), k1) && Text.Contains(Text.Lower(tags[1..][i]), k2)
      ensures DimensionDeEtiqueta(k1) == DimensionDeEtiqueta(k2)
    {
      assert tags[1..][i] == tags[i + 1];
    }
  }

  /** When no tag mixes keywords of two dimensions, the order in which the
      keyword set is iterated does not change the dimension the tags give. */
  lemma {:induction false} PorTagsSinAmbiguedad(tags: seq<string>, o1: seq<string>, o2: seq<string>)
    requires OrdenDeEtiquetas(o1) && OrdenDeEtiquetas(o2)
    requires forall k :: k in o1 <==> k in o2
    requires SinMezcla(tags, o1)
    ensures PorTags(tags, o1) == PorTags(tags, o2)
  {
    if |tags| > 0 {
      var t := Text.Lower(tags[0]);
      var a, b := Text.FirstContained(t, o1), Text.FirstContained(t, o2);
      if a.Some? {
        assert b.Some?;
      } else {
        assert b.None?;
        SinMezclaCola(tags, o1);
        PorTagsSinAmbiguedad(tags[1..], o1, o2);
      }
    }
  }

  /** Nor, then, does it change the inferred dimension. */
  lemma InferirSinAmbiguedad(tags: seq<string>, o1: seq<string>, o2: seq<string>)
    requires OrdenDeEtiquetas(o1) && OrdenDeEtiquetas(o2)
    requires forall k :: k in o1 <==> k in o2
    requires SinMezcla(tags, o1)
    ensures forall m, fp :: InferirDimension(m, tags, fp, o1) == InferirDimension(m, tags, fp, o2)
  {
    PorTagsSinAmbiguedad(tags, o1, o2);
  }
}
