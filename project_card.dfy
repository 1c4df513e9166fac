/** An impact project's card (ProjectCard). */
module ProjectCard {
  import opened Wrappers
  import opened Cards

  /** `ImpactProject`; the picture is read through `image?.`. */
  datatype ImpactProject = ImpactProject(id: string, title: string, description: string,
                                         image: Option<Image>, location: string, category: string,
                                         metrics: seq<Metric>)

  datatype ProjectView = ProjectView(picture: Option<Image>, category: string, location: string,
                                     title: string, description: string, metrics: seq<MetricCell>)

  function View(p: ImpactProject): ProjectView {
    ProjectView(PictureIfSource(p.image, p.title), p.category, p.location, p.title, p.description,
                ShownMetrics(p.metrics))
  }

  /** The card draws the picture only when it has a source, named by its alt
      text or else the title; it always draws the category and the location;
      and it shows at most the first three metrics, in order, each labelled by
      its key with underscores turned into spaces. */
  lemma ViewOfProject(p: ImpactProject)
    ensures var v := View(p);
      && (v.picture.Some? <==> p.image.Some? && p.image.value.src != "")
      && (v.picture.Some? ==> v.picture.value.alt == (if p.image.value.alt != "" then p.image.value.alt else p.title))
      && v.category == p.category && v.location == p.location
      && |v.metrics| <= 3 && (|p.metrics| >= 3 ==> |v.metrics| == 3)
      && (forall i :: 0 <= i < |v.metrics| ==>
            v.metrics[i].value == p.metrics[i].value && '_' !in v.metrics[i].caption
            && |v.metrics[i].caption| == |p.metrics[i].key|)
  {
  }
}
