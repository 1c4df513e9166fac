/** The preview card of an insight (BlogCard), and the post it shows, which the
    insights list filters as well. */
module BlogCard {
  import opened Wrappers
  import opened Text
  import opened Cards

  datatype Author = Author(id: string, name: string, role: string)

  /** `BlogPost`; the picture is read through `image?.`, so it may be absent. */
  datatype BlogPost = BlogPost(id: string, slug: string, title: string, excerpt: string,
                               image: Option<Image>, author: Author, publishedAt: string,
                               tags: seq<string>, readTime: nat)

  /** What the card renders: the link, the picture, the reading-time badge, the
      tags, the title and excerpt, and the author's avatar initials and name.
      (The publication date is formatted by the browser's locale support and
      is not part of this view.) */
  datatype CardView = CardView(href: string, picture: Option<Image>, badge: string,
                               tags: seq<string>, title: string, excerpt: string,
                               initials: string, authorName: string)

  const InsightsPath: string := "/insights/"
  const MinRead: string := " min read"

  /** The link target of a post. */
  function Href(slug: string): (r: string)
    ensures StartsWith(r, InsightsPath) && r[|InsightsPath|..] == slug
  {
    InsightsPath + slug
  }

  /** `tags.slice(0, 3)` */
  function ShownTags(tags: seq<string>): (r: seq<string>)
    ensures |r| == if |tags| < 3 then |tags| else 3
    ensures r == tags[..|r|]
  {
    if |tags| < 3 then tags else tags[..3]
  }

  /** The reading-time badge: the number of minutes, then " min read". */
  function Badge(readTime: nat): (r: string)
    ensures EndsWith(r, MinRead)
  {
    NatToString(readTime) + MinRead
  }

  function View(post: BlogPost): CardView {
    CardView(Href(post.slug), PictureIfSource(post.image, post.title), Badge(post.readTime),
             ShownTags(post.tags), post.title, post.excerpt,
             Initials(post.author.name), post.author.name)
  }

  /** Two posts get the same link exactly when they have the same slug. */
  lemma HrefInjective(a: string, b: string)
    ensures Href(a) == Href(b) <==> a == b
  {
    if Href(a) == Href(b) {
      assert a == Href(a)[|InsightsPath|..];
    }
  }

  /** The minutes can be read back from the badge: it is the decimal digits
      of the reading time followed by " min read". */
  lemma BadgeReadsBack(readTime: nat)
    ensures var digits := Badge(readTime)[..|Badge(readTime)| - |MinRead|];
      (forall i :: 0 <= i < |digits| ==> IsDigit(digits[i])) && ParseDigits(digits) == readTime
  {
    var b := Badge(readTime);
    assert b[..|b| - |MinRead|] == NatToString(readTime);
    ParseNatToString(readTime);
  }

  /** The card shows the post's link, at most its first three tags in their
      order, its picture only when it has a source, with the title standing in
      for a missing alt text, and the author's initials. */
  lemma ViewOfPost(post: BlogPost)
    ensures var v := View(post);
      && v.href == InsightsPath + post.slug
      && |v.tags| <= 3 && v.tags == post.tags[..|v.tags|]
      && (|post.tags| >= 3 ==> |v.tags| == 3)
      && (v.picture.Some? <==> post.image.Some? && post.image.value.src != "")
      && (v.picture.Some? && post.title != "" ==> v.picture.value.alt != "")
      && v.initials == WordStarts(post.author.name, true)
  {
    InitialsAreWordStarts(post.author.name);
  }
}
