/** The numbered onboarding steps (OnboardingSteps) and the portfolio venture
    card (VentureCard) on the same page. */
module OnboardingSteps {
  import opened Wrappers
  import opened Text
  import opened Cards

  datatype OnboardingStep = OnboardingStep(step: nat, title: string, description: string)

  /** `step.toString().padStart(2, '0')` */
  function StepLabel(step: nat): string {
    PadStart(NatToString(step), 2, '0')
  }

  /** The label is at least two digits: a one-digit step gets a leading zero,
      a longer number is left as it is, and the label reads back as the step
      number. */
  lemma StepLabelReadsBack(step: nat)
    ensures var l := StepLabel(step);
      && |l| >= 2
      && (step < 10 ==> l == "0" + NatToString(step))
      && (step >= 10 ==> l == NatToString(step))
      && (forall i :: 0 <= i < |l| ==> IsDigit(l[i]))
      && ParseDigits(l) == step
  {
    var d := NatToString(step);
    var l := StepLabel(step);
    ParseNatToString(step);
    if step < 10 {
      assert Repeat('0', 1) == "0";
      ParseLeadingZeros(1, d);
    }
  }

  /** Distinct steps get distinct labels. */
  lemma StepLabelInjective(a: nat, b: nat)
    requires StepLabel(a) == StepLabel(b)
    ensures a == b
  {
    StepLabelReadsBack(a);
    StepLabelReadsBack(b);
  }

  datatype StepView = StepView(number: string, title: string, description: string)

  /** The list: an optional heading, then each step with its label. */
  datatype StepsView = StepsView(heading: Option<string>, steps: seq<StepView>)

  function View(steps: seq<OnboardingStep>, title: Option<string>): (r: StepsView)
    ensures |r.steps| == |steps|
    ensures forall i :: 0 <= i < |steps| ==> r.steps[i] == StepView(StepLabel(steps[i].step), steps[i].title, steps[i].description)
    ensures r.heading.Some? <==> Present(title)
  {
    StepsView(if Present(title) then title else None,
              seq(|steps|, i requires 0 <= i < |steps| => StepView(StepLabel(steps[i].step), steps[i].title, steps[i].description)))
  }

  // --------------------------------------------------------------- ventures

  datatype VentureStatus = Incubation | Funded | Exited

  datatype Venture = Venture(id: string, name: string, status: VentureStatus, description: string,
                             sector: Option<string>, metrics: seq<Metric>)

  /** `statusColors[venture.status]`, defined for every status. */
  function StatusClasses(status: VentureStatus): (r: string)
    ensures r != ""
  {
    match status
    case Incubation => "bg-blue-500/20 text-blue-400 border-blue-400/30"
    case Funded => "bg-tenx-gold/20 text-tenx-gold border-tenx-gold/30"
    case Exited => "bg-green-500/20 text-green-400 border-green-400/30"
  }

  /** The three statuses are drawn in three different styles. */
  lemma StatusClassesDistinct(a: VentureStatus, b: VentureStatus)
    ensures StatusClasses(a) == StatusClasses(b) <==> a == b
  {
    if a != b {
      var x, y := StatusClasses(a), StatusClasses(b);
      assert x[|x| - 8] != y[|y| - 8];
    }
  }

  datatype VentureView = VentureView(name: string, sector: Option<string>, badge: VentureStatus,
                                     badgeClasses: string, description: string, metrics: seq<MetricCell>)

  function VentureCardView(v: Venture): VentureView {
    VentureView(v.name, if Present(v.sector) then v.sector else None, v.status, StatusClasses(v.status),
                v.description, ShownMetrics(v.metrics))
  }

  /** The venture card shows the sector only when there is one, styles the
      status badge by the status, and shows at most the first three metrics in
      order, labelled by their keys with underscores turned into spaces. */
  lemma ViewOfVenture(v: Venture)
    ensures var c := VentureCardView(v);
      && (c.sector.Some? <==> Present(v.sector))
      && c.badgeClasses == StatusClasses(v.status)
      && |c.metrics| <= 3 && (|v.metrics| >= 3 ==> |c.metrics| == 3)
      && (forall i :: 0 <= i < |c.metrics| ==>
            c.metrics[i].value == v.metrics[i].value && c.metrics[i].caption == MetricLabel(v.metrics[i].key))
  {
  }
}
