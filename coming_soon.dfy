/** The placeholder page for sections still being built (ComingSoon): a list
    of milestones and a progress bar computed from them. */
module ComingSoon {
  import opened Wrappers
  import opened Text

  datatype MilestoneStatus = Complete | InProgress | Queued

  /** A roadmap entry; `text` is the entry's `label` (a reserved word in Dafny). */
  datatype Milestone = Milestone(text: string, eta: Option<string>, status: Option<MilestoneStatus>)

  /** The milestones shown when the page gives none. */
  const DefaultMilestones: seq<Milestone> := [
    Milestone("Experience architecture locked in", None, Some(Complete)),
    Milestone("Interface build and polish", Some("This week"), Some(InProgress)),
    Milestone("Early access invites", Some("Next"), Some(Queued))
  ]

  const MinProgress: nat := 10
  const MaxProgress: nat := 100

  /** `milestones.filter(m => m.status === 'complete').length` */
  function Completed(milestones: seq<Milestone>): (r: nat)
    ensures r <= |milestones|
  {
    if milestones == [] then 0
    else (if milestones[0].status == Some(Complete) then 1 else 0) + Completed(milestones[1..])
  }

  /** The bar's percentage: the completed share rounded to a whole percent
      and kept between 10 and 100; an empty list shows 10. */
  function Progress(milestones: seq<Milestone>): nat {
    if |milestones| == 0 then MinProgress
    else
      var rounded := RoundDiv(100 * Completed(milestones), |milestones|);
      Max(MinProgress, Min(MaxProgress, rounded))
  }

  function Max(a: nat, b: nat): nat { if a >= b then a else b }
  function Min(a: nat, b: nat): nat { if a <= b then a else b }

  /** The bar is never shorter than 10% nor longer than 100%; strictly between
      those it is the completed share to the nearest percent. */
  lemma ProgressBounds(milestones: seq<Milestone>)
    ensures MinProgress <= Progress(milestones) <= MaxProgress
    ensures var n := |milestones|; var p := Progress(milestones);
      MinProgress < p < MaxProgress ==> 2 * n * p <= 200 * Completed(milestones) + n < 2 * n * (p + 1)
  {
    if |milestones| > 0 {
      var c := Completed(milestones);
      var n := |milestones|;
      var r := RoundDiv(100 * c, n);
      RoundDivMonotone(100 * c, 100 * n, n);
      RoundDivExact(100, n);
      assert r <= MaxProgress;
      assert Progress(milestones) == Max(MinProgress, r);
    }
  }

  /** Everything done fills the bar (when there is anything to do); nothing
      done, or no milestones at all, shows the 10% floor. */
  lemma ProgressEnds(milestones: seq<Milestone>)
    ensures milestones != [] && Completed(milestones) == |milestones| ==> Progress(milestones) == MaxProgress
    ensures Completed(milestones) == 0 ==> Progress(milestones) == MinProgress
  {
    var n := |milestones|;
    if n > 0 && Completed(milestones) == n {
      RoundDivExact(100, n);
      assert RoundDiv(100 * Completed(milestones), n) == 100;
    }
    if n > 0 && Completed(milestones) == 0 {
      RoundDivExact(0, n);
      assert RoundDiv(100 * Completed(milestones), n) == 0;
    }
  }

  /** Completing more of the same number of milestones never shortens the
      bar. */
  lemma ProgressMonotone(a: seq<Milestone>, b: seq<Milestone>)
    requires |a| == |b| && Completed(a) <= Completed(b)
    ensures Progress(a) <= Progress(b)
  {
    if |a| > 0 {
      RoundDivMonotone(100 * Completed(a), 100 * Completed(b), |a|);
    }
  }

  /** The default list ships one milestone of three: 33%. */
  lemma DefaultProgress()
    ensures Completed(DefaultMilestones) == 1
    ensures Progress(DefaultMilestones) == 33
  {
    assert DefaultMilestones[1..][1..][1..] == [];
    var r := RoundDiv(100, 3);
    assert 6 * r <= 203 < 6 * (r + 1);
  }

  /** `milestone.status || 'queued'` */
  function ShownStatus(m: Milestone): MilestoneStatus {
    m.status.GetOr(Queued)
  }

  /** The badge text of a milestone. */
  function BadgeText(status: MilestoneStatus): string {
    match status
    case Complete => "Done"
    case InProgress => "Now"
    case Queued => "Next"
  }

  /** A milestone without a status shows as queued ("Next") and does not count
      as shipped; only a milestone showing "Done" counts. */
  lemma MissingStatusIsQueued(milestones: seq<Milestone>, i: nat)
    requires i < |milestones| && milestones[i].status.None?
    ensures ShownStatus(milestones[i]) == Queued && BadgeText(ShownStatus(milestones[i])) == "Next"
    ensures Completed(milestones) == Completed(milestones[..i]) + Completed(milestones[i + 1..])
  {
    CompletedSplit(milestones, i);
  }

  lemma {:induction false} CompletedSplit(milestones: seq<Milestone>, i: nat)
    requires i < |milestones|
    ensures Completed(milestones) ==
      Completed(milestones[..i]) + (if milestones[i].status == Some(Complete) then 1 else 0) + Completed(milestones[i + 1..])
  {
    if i > 0 {
      CompletedSplit(milestones[1..], i - 1);
      assert milestones[1..][..i - 1] == milestones[1..i];
      assert milestones[..i][1..] == milestones[1..i];
      assert milestones[1..][i..] == milestones[i + 1..];
    } else {
      assert milestones[1..] == milestones[i + 1..];
    }
  }

  /** "Done" is shown exactly for the milestones that count as shipped. */
  lemma DoneIffCounted(m: Milestone)
    ensures BadgeText(ShownStatus(m)) == "Done" <==> m.status == Some(Complete)
  {
  }
}
