/** What the content cards (BlogCard, TeamMember, ProjectCard, VentureCard)
    have in common: an optional picture with an alt-text fallback, the avatar
    initials of a person's name, and the first three metric entries of a
    record, labelled with their keys. */
module Cards {
  import opened Wrappers
  import opened Text

  /** An `{ src, alt }` picture. */
  datatype Image = Image(src: string, alt: string)

  /** `a || b` on strings: `a` unless it is empty. */
  function Or(a: string, b: string): string {
    if a != "" then a else b
  }

  /** `x && <…>{x}</…>` for an optional string: rendered only when present
      and not empty. */
  predicate Present(x: Option<string>) {
    x.Some? && x.value != ""
  }

  /** `image?.src && <img src={image.src} alt={image.alt || fallback} />`:
      the picture drawn, if any. */
  function PictureIfSource(image: Option<Image>, fallback: string): (r: Option<Image>)
    ensures r.Some? <==> image.Some? && image.value.src != ""
    ensures r.Some? ==> r.value.src == image.value.src
    ensures r.Some? && image.value.alt != "" ==> r.value.alt == image.value.alt
    ensures r.Some? && image.value.alt == "" ==> r.value.alt == fallback
    ensures r.Some? && fallback != "" ==> r.value.alt != ""
  {
    if image.Some? && image.value.src != "" then Some(Image(image.value.src, Or(image.value.alt, fallback)))
    else None
  }

  // ---------------------------------------------------------------- initials

  /** `words.map(n => n[0]).join('')`: the first character of each word; an
      empty word gives `undefined`, which `join` prints as nothing. */
  function FirstChars(words: seq<string>): (r: string)
    ensures |r| <= |words|
  {
    if |words| == 0 then []
    else (if words[0] == [] then [] else [words[0][0]]) + FirstChars(words[1..])
  }

  /** `name.split(' ').map(n => n[0]).join('')` */
  function Initials(name: string): string {
    FirstChars(Split(name, ' '))
  }

  /** A reading of the initials that does not go through `split`: scanning the
      name left to right, every non-space character that starts the name or
      follows a space. `afterSpace` says whether the previous character was a
      space (or there was none). */
  function WordStarts(s: string, afterSpace: bool): (r: string)
    ensures |r| <= |s|
    ensures ' ' !in r
  {
    if s == [] then []
    else (if s[0] != ' ' && afterSpace then [s[0]] else []) + WordStarts(s[1..], s[0] == ' ')
  }

  lemma {:induction false} WordStartsOfSplit(s: string)
    ensures WordStarts(s, true) == FirstChars(Split(s, ' '))
    ensures WordStarts(s, false) == FirstChars(Split(s, ' ')[1..])
  {
    if s != [] {
      var rest := Split(s[1..], ' ');
      WordStartsOfSplit(s[1..]);
      var parts := Split(s, ' ');
      if s[0] == ' ' {
        assert parts == [[]] + rest;
        assert parts[1..] == rest;
      } else {
        assert parts == [[s[0]] + rest[0]] + rest[1..];
        assert parts[1..] == rest[1..];
      }
    }
  }

  /** The initials are exactly the characters that start a word of the name:
      each comes from a non-space character at the start of the name or right
      after a space, in order, so a run of spaces adds nothing and no initial
      is a space. */
  lemma InitialsAreWordStarts(name: string)
    ensures Initials(name) == WordStarts(name, true)
    ensures |Initials(name)| <= |name|
    ensures ' ' !in Initials(name)
  {
    WordStartsOfSplit(name);
  }

  /** A name whose words are separated by single spaces, each word non-empty,
      gets one initial per word. */
  lemma {:induction false} InitialsOfWords(words: seq<string>)
    requires forall k :: 0 <= k < |words| ==> words[k] != [] && ' ' !in words[k]
    ensures |FirstChars(words)| == |words|
    ensures forall k :: 0 <= k < |words| ==> FirstChars(words)[k] == words[k][0]
  {
    if words != [] {
      InitialsOfWords(words[1..]);
    }
  }

  // ----------------------------------------------------------------- metrics

  /** A metric value, `string | number` (a number is kept as an integer). */
  datatype MetricValue = Words(text: string) | Number(n: int)

  /** One `[key, value]` entry of `Object.entries(metrics)`. */
  datatype Metric = Metric(key: string, value: MetricValue)

  /** The cell a metric is drawn as: its value over its label. */
  datatype MetricCell = MetricCell(caption: string, value: MetricValue)

  /** `key.replace(/_/g, ' ')` */
  function MetricLabel(key: string): (r: string)
    ensures |r| == |key|
    ensures '_' !in r
    ensures forall i :: 0 <= i < |key| && key[i] != '_' ==> r[i] == key[i]
    ensures forall i :: 0 <= i < |key| && key[i] == '_' ==> r[i] == ' '
  {
    var r := ReplaceAll(key, '_', ' ');
    assert forall i :: 0 <= i < |r| ==> r[i] != '_';
    r
  }

  /** `Object.entries(metrics).slice(0, 3).map(([key, value]) => …)`: the first
      three entries in insertion order, each labelled with its key. */
  function ShownMetrics(metrics: seq<Metric>): (r: seq<MetricCell>)
    ensures |r| == if |metrics| < 3 then |metrics| else 3
    ensures forall i :: 0 <= i < |r| ==> r[i].value == metrics[i].value
    ensures forall i :: 0 <= i < |r| ==> r[i].caption == MetricLabel(metrics[i].key)
  {
    var shown := if |metrics| < 3 then metrics else metrics[..3];
    seq(|shown|, i requires 0 <= i < |shown| => MetricCell(MetricLabel(shown[i].key), shown[i].value))
  }

  /** A key without underscores is its own label, and labelling twice changes
      nothing more. */
  lemma MetricLabelFixed(key: string)
    ensures '_' !in key ==> MetricLabel(key) == key
    ensures MetricLabel(MetricLabel(key)) == MetricLabel(key)
  {
    var r := MetricLabel(key);
    if '_' !in key {
      assert forall i :: 0 <= i < |key| ==> key[i] != '_';
    }
    assert forall i :: 0 <= i < |r| ==> r[i] != '_';
  }
}
