/**
 * The breadcrumb above every page: the pathname is cut at '/' into its
 * non-empty segments, each segment links to the path made of it and the
 * segments before it, is labelled with the page's name when it has one, and
 * only the last one is marked as the current page. The layout's active
 * section is the first piece of the same pathname.
 */
module Breadcrumb {
  import opened Seqs

  /** The page names of the known route segments. */
  const RouteNames: map<string, string> := map[
    "overview" := "Visão Geral",
    "expenses" := "Despesas",
    "budget" := "Orçamento",
    "goals" := "Metas",
    "chat" := "Chat IA"]

  /** filter(Boolean) on strings: only the empty string is dropped. */
  predicate NonEmpty(s: string)
  {
    s != ""
  }

  /**
   * location.pathname.split('/').filter(Boolean): no segment is empty or
   * holds a '/', and every non-empty piece between slashes is a segment.
   */
  function Segments(path: string): (r: seq<string>)
    ensures forall i :: 0 <= i < |r| ==> r[i] != "" && '/' !in r[i]
    ensures forall i :: 0 <= i < |Split(path, '/')| && Split(path, '/')[i] != "" ==> Split(path, '/')[i] in r
  {
    FilterMembers(Split(path, '/'), NonEmpty);
    Filter(Split(path, '/'), NonEmpty)
  }

  /** The link of segment i: a slash and the first i + 1 segments joined with slashes. */
  function Link(segments: seq<string>, i: nat): string
    requires i < |segments|
  {
    "/" + Join(segments[..i + 1], "/")
  }

  /** Each link is the previous link followed by a slash and its own segment. */
  lemma LinkExtends(segments: seq<string>, i: nat)
    requires 0 < i < |segments|
    ensures Link(segments, i) == Link(segments, i - 1) + "/" + segments[i]
  {
    assert segments[..i + 1] == segments[..i] + [segments[i]];
    JoinSnoc(segments[..i], segments[i], "/");
  }

  /** The pieces of a link's path: the empty piece before its leading slash, then the segments. */
  lemma {:induction false} LinkPieces(segments: seq<string>, i: nat)
    requires i < |segments|
    requires forall j :: 0 <= j < |segments| ==> segments[j] != "" && '/' !in segments[j]
    ensures Split(Link(segments, i), '/') == [""] + segments[..i + 1]
  {
    var prefix := segments[..i + 1];
    SplitJoin(prefix, '/');
    assert Link(segments, i) == "" + ['/'] + Join(prefix, ['/']);
    SplitAtSep("", Join(prefix, ['/']), '/');
  }

  /**
   * Following the link of a segment leads to a breadcrumb made of that
   * segment and the ones before it.
   */
  lemma {:induction false} LinkRoundTrip(path: string, i: nat)
    requires i < |Segments(path)|
    ensures Segments(Link(Segments(path), i)) == Segments(path)[..i + 1]
  {
    var segments := Segments(path);
    LinkPieces(segments, i);
    var pieces := [""] + segments[..i + 1];
    assert pieces[1..] == segments[..i + 1];
    FilterAll(segments[..i + 1], NonEmpty);
  }

  /** routeNames[segment] || segment: the page name when the segment has one, else the segment. */
  function Label(segment: string): (r: string)
    ensures segment in RouteNames ==> r == RouteNames[segment]
    ensures segment !in RouteNames ==> r == segment
  {
    if segment in RouteNames && RouteNames[segment] != "" then RouteNames[segment] else segment
  }

  /** One step of the breadcrumb: where it links, what it reads and whether it is the current page. */
  datatype Crumb = Crumb(link: string, title: string, current: bool)

  /** The breadcrumb of a pathname, one crumb per segment. */
  function Crumbs(path: string): (r: seq<Crumb>)
    ensures |r| == |Segments(path)|
  {
    var segments := Segments(path);
    seq(|segments|, i requires 0 <= i < |segments| =>
      Crumb(Link(segments, i), Label(segments[i]), i == |segments| - 1))
  }

  /**
   * Exactly one crumb is the current page when there is any: the last,
   * whose link is the whole cleaned-up path.
   */
  lemma OnlyLastIsCurrent(path: string)
    ensures forall i :: 0 <= i < |Crumbs(path)| ==> (Crumbs(path)[i].current <==> i == |Crumbs(path)| - 1)
    ensures |Crumbs(path)| > 0 ==>
              Crumbs(path)[|Crumbs(path)| - 1].link == "/" + Join(Segments(path), "/")
  {
    var segments := Segments(path);
    if |segments| > 0 {
      assert segments[..|segments|] == segments;
    }
  }

  /** A page one level deep has a single crumb, the current one, linking to the page itself. */
  lemma {:induction false} SingleCrumb(segment: string)
    requires segment != "" && '/' !in segment
    ensures Crumbs("/" + segment) == [Crumb("/" + segment, Label(segment), true)]
  {
    SplitAtSep("", segment, '/');
    assert "/" + segment == "" + ['/'] + segment;
    SplitNoSep(segment, '/');
    var pieces := [""] + [segment];
    assert pieces[1..] == [segment];
    assert Filter([segment], NonEmpty) == [segment];
    assert Segments("/" + segment) == [segment];
    assert [segment][..1] == [segment];
  }

  /** The root path has no crumbs; known routes are named, others keep their text. */
  lemma CrumbExamples()
    ensures Crumbs("/") == []
    ensures Label("budget") == "Orçamento"
    ensures Label("credit-cards") == "credit-cards"
  {
    assert Split("/", '/') == [""] + Split("", '/');
    assert Filter([""] + [""], NonEmpty) == Filter([""], NonEmpty);
  }

  /** The layout's active section: the piece after the first slash, or "overview" when that is missing or empty. */
  function CurrentSection(path: string): string
  {
    var pieces := Split(path, '/');
    if |pieces| > 1 && pieces[1] != "" then pieces[1] else "overview"
  }

  /**
   * The section of a breadcrumb link is the first segment of the path. For a
   * pathname that starts with a slash followed by a segment, that is the
   * layout's active section for the path itself; a path with an empty piece
   * right after the leading slash ("//expenses") opens the overview while its
   * links open the first segment.
   */
  lemma {:induction false} LinkKeepsSection(path: string, i: nat)
    requires i < |Segments(path)|
    ensures CurrentSection(Link(Segments(path), i)) == Segments(path)[0]
    ensures path[0] == '/' && Split(path, '/')[1] != "" ==>
              CurrentSection(Link(Segments(path), i)) == CurrentSection(path)
  {
    LinkPieces(Segments(path), i);
    if path[0] == '/' {
      var rest := path[1..];
      assert path == "" + ['/'] + rest;
      SplitAtSep("", rest, '/');
      var pieces := Split(path, '/');
      assert pieces == [""] + Split(rest, '/');
      assert pieces[1..] == Split(rest, '/');
      assert Filter(pieces, NonEmpty) == Filter(Split(rest, '/'), NonEmpty);
      if Split(rest, '/')[0] != "" {
        assert Segments(path)[0] == Split(rest, '/')[0];
      }
    }
  }

  /**
   * On a path such as "//expenses" the page opens the overview, but its only
   * crumb links to the section named by the segment.
   */
  lemma EmptyFirstPieceSection(w: string)
    requires w != "" && '/' !in w
    ensures CurrentSection("//" + w) == "overview"
    ensures Segments("//" + w) == [w]
    ensures CurrentSection(Link(Segments("//" + w), 0)) == w
  {
    DoubleSlashPieces(w);
    var pieces := ["", "", w];
    assert pieces[1..][1..] == [w];
    assert Filter([w], NonEmpty) == [w] + Filter([], NonEmpty);
    assert Filter(pieces, NonEmpty) == [w];
    LinkKeepsSection("//" + w, 0);
  }

  lemma DoubleSlashPieces(w: string)
    requires '/' !in w
    ensures Split("//" + w, '/') == ["", "", w]
  {
    SplitNoSep(w, '/');
    SplitAtSep("", w, '/');
    SplitAtSep("", "" + ['/'] + w, '/');
    assert "//" + w == "" + ['/'] + ("" + ['/'] + w);
  }



  /** The root path and the empty path open the overview. */
  lemma RootSection()
    ensures CurrentSection("/") == "overview"
    ensures CurrentSection("") == "overview"
  {
    assert Split("/", '/') == [""] + Split("", '/');
  }
}
