/** The reference-sources list: the grounding chunks that carry a `web` part,
    in their original order, each rendered as a link; nothing at all when
    there is none. */
module SourcesDisplay {
  import opened Types

  /** `sources.filter(source => source.web)`. */
  function WebSources(sources: seq<GroundingChunk>): (r: seq<GroundingChunk>)
    ensures |r| <= |sources|
    ensures forall i | 0 <= i < |r| :: r[i].web.Some? && r[i] in sources
    ensures forall i | 0 <= i < |sources| && sources[i].web.Some? :: sources[i] in r
  {
    if sources == [] then []
    else (if sources[0].web.Some? then [sources[0]] else []) + WebSources(sources[1..])
  }

  /** Filtering a concatenation filters each part and keeps them in order:
      a kept chunk never moves past one that came after it. */
  lemma {:induction false} WebSourcesConcat(a: seq<GroundingChunk>, b: seq<GroundingChunk>)
    ensures WebSources(a + b) == WebSources(a) + WebSources(b)
    decreases |a|
  {
    if a != [] {
      assert (a + b)[0] == a[0];
      assert (a + b)[1..] == a[1..] + b;
      WebSourcesConcat(a[1..], b);
    } else {
      assert a + b == b;
    }
  }

  /** Each chunk is kept exactly as often as it occurs, when it has a `web`
      part, and dropped otherwise. */
  lemma {:induction false} WebSourcesCounts(sources: seq<GroundingChunk>, c: GroundingChunk)
    ensures multiset(WebSources(sources))[c] == if c.web.Some? then multiset(sources)[c] else 0
    decreases |sources|
  {
    if sources != [] {
      WebSourcesCounts(sources[1..], c);
      assert sources == [sources[0]] + sources[1..];
    }
  }

  /** A list whose chunks all have a `web` part comes through unchanged. */
  lemma {:induction false} AllWebKept(sources: seq<GroundingChunk>)
    requires forall i | 0 <= i < |sources| :: sources[i].web.Some?
    ensures WebSources(sources) == sources
    decreases |sources|
  {
    if sources != [] {
      AllWebKept(sources[1..]);
    }
  }

  /** A rendered list item: the link target and its text (also its tooltip). */
  datatype Link = Link(href: string, title: string)

  /** The component's output: `None` renders nothing. */
  function Render(sources: seq<GroundingChunk>): (r: Option<seq<Link>>)
    ensures r.None? <==> forall i | 0 <= i < |sources| :: sources[i].web.None?
    ensures r.Some? ==> |r.value| == |WebSources(sources)|
    ensures r.Some? ==> forall i | 0 <= i < |r.value| ::
      r.value[i] == Link(WebSources(sources)[i].web.value.uri, WebSources(sources)[i].web.value.title)
  {
    var webSources := WebSources(sources);
    assert |webSources| > 0 ==> webSources[0] in sources;
    if |webSources| == 0 then None
    else Some(seq(|webSources|, i requires 0 <= i < |webSources| =>
      Link(webSources[i].web.value.uri, webSources[i].web.value.title)))
  }
}
