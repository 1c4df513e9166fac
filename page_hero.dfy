/** The hero block of the inner pages (PageHero): the headline is broken into
    lines after each full stop. */
module PageHero {
  import opened Wrappers
  import opened Text

  /** One `<span>` of the headline: a piece, followed by a full stop and a line
      break unless it is the last piece. */
  datatype Span = Span(text: string, stop: bool)

  /** `headline.split('.').map((part, i, arr) => …)` */
  function Spans(headline: string): (r: seq<Span>)
    ensures |r| == |Split(headline, '.')|
  {
    var parts := Split(headline, '.');
    SpansOf(parts)
  }

  function SpansOf(parts: seq<string>): (r: seq<Span>)
    ensures |r| == |parts|
    ensures forall i :: 0 <= i < |parts| ==> r[i] == Span(parts[i], i < |parts| - 1)
  {
    seq(|parts|, i requires 0 <= i < |parts| => Span(parts[i], i < |parts| - 1))
  }

  /** The text of the spans one after another, each stop drawn as ".". */
  function Rendered(spans: seq<Span>): string {
    if spans == [] then [] else spans[0].text + (if spans[0].stop then "." else "") + Rendered(spans[1..])
  }

  /** The number of line breaks. */
  function Breaks(spans: seq<Span>): nat {
    if spans == [] then 0 else (if spans[0].stop then 1 else 0) + Breaks(spans[1..])
  }

  lemma {:induction false} SpansJoin(parts: seq<string>)
    requires |parts| >= 1
    ensures Rendered(SpansOf(parts)) == Join(parts, ".")
    ensures Breaks(SpansOf(parts)) == |parts| - 1
  {
    var r := SpansOf(parts);
    if |parts| > 1 {
      assert r[1..] == SpansOf(parts[1..]);
      SpansJoin(parts[1..]);
    }
  }

  /** Drawn one after another, the spans give back the headline exactly, with
      one line break for every full stop in it. */
  lemma SpansRebuildHeadline(headline: string)
    ensures Rendered(Spans(headline)) == headline
    ensures Breaks(Spans(headline)) == CountChar(headline, '.')
  {
    SpansJoin(Split(headline, '.'));
    JoinSplit(headline, '.');
    SplitCount(headline, '.');
  }

  /** A headline without a full stop is one span and no break; a headline
      ending in a full stop ends with an empty span. */
  lemma SpanEdges(headline: string)
    ensures '.' !in headline ==> Spans(headline) == [Span(headline, false)]
    ensures headline != [] && headline[|headline| - 1] == '.' ==>
      |Spans(headline)| >= 2 && Spans(headline)[|Spans(headline)| - 1] == Span("", false)
  {
    if '.' !in headline {
      SplitNoSep(headline, '.');
    }
    if headline != [] && headline[|headline| - 1] == '.' {
      SplitEndsEmpty(headline, '.');
    }
  }

  /** A text that ends with the separator splits with an empty last piece. */
  lemma {:induction false} SplitEndsEmpty(s: string, sep: char)
    requires s != [] && s[|s| - 1] == sep
    ensures |Split(s, sep)| >= 2 && Split(s, sep)[|Split(s, sep)| - 1] == []
  {
    if |s| == 1 {
      assert s[1..] == [];
    } else {
      SplitEndsEmpty(s[1..], sep);
    }
  }

  /** The whole hero: the headline spans, the subheadline when it is there
      and not empty, and whether the children block is drawn. */
  datatype HeroView = HeroView(headline: seq<Span>, subheadline: Option<string>, childrenShown: bool)

  function View(headline: string, subheadline: Option<string>, hasChildren: bool): (v: HeroView)
    ensures v.subheadline.Some? <==> subheadline.Some? && subheadline.value != ""
    ensures v.childrenShown == hasChildren
  {
    HeroView(Spans(headline), if subheadline.Some? && subheadline.value != "" then subheadline else None, hasChildren)
  }
}
