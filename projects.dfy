/** Project cards, drawn the same way by the dashboard and the academic panel:
  * a progress badge and a strip of at most three team avatars followed by an
  * overflow count. */
module Projects {
  import opened Seqs
  import opened Endpoints
  import opened Display

  const WorkInProgress := "Work in Progress"
  const Completed := "Completed"

  const AvatarLimit := 3

  datatype Member = Member(nama: string, foto: string)

  /** The badge colour of a project's `progress_project`, matched exactly (case included). */
  function ProgressBadgeClass(progress: string): (cls: string)
    ensures progress == WorkInProgress ==> cls == YellowBadge
    ensures progress == Completed ==> cls == GreenBadge
    ensures progress != WorkInProgress && progress != Completed ==> cls == BlueBadge
  {
    if progress == WorkInProgress then YellowBadge
    else if progress == Completed then GreenBadge
    else BlueBadge
  }

  /** The three colours are distinct, so the badge tells which case applied. */
  lemma ProgressBadgeIdentifiesCase(progress: string)
    ensures ProgressBadgeClass(progress) == YellowBadge <==> progress == WorkInProgress
    ensures ProgressBadgeClass(progress) == GreenBadge <==> progress == Completed
    ensures ProgressBadgeClass(progress) == BlueBadge <==> progress != WorkInProgress && progress != Completed
  {
    assert YellowBadge[3] != GreenBadge[3] && GreenBadge[3] != BlueBadge[3] && YellowBadge[3] != BlueBadge[3];
  }

  /** The avatars drawn, and the "+n lainnya" count when there is one. */
  datatype TeamStrip = TeamStrip(avatars: seq<Member>, overflow: Option<nat>)

  /** `team?.slice(0, 3)` and `team?.length > 3 && +{team.length - 3}`. */
  function TeamStripOf(team: Option<seq<Member>>): (t: TeamStrip)
    ensures team.None? ==> t.avatars == [] && t.overflow.None?
    ensures team.Some? ==> |t.avatars| == Min(AvatarLimit, |team.value|) && t.avatars == team.value[..|t.avatars|]
    ensures t.overflow.Some? <==> team.Some? && |team.value| > AvatarLimit
    ensures t.overflow.Some? ==> t.overflow.value == |team.value| - AvatarLimit
  {
    if team.None? then TeamStrip([], None)
    else if |team.value| > AvatarLimit then TeamStrip(team.value[..AvatarLimit], Some(|team.value| - AvatarLimit))
    else TeamStrip(team.value, None)
  }

  /** Nobody is lost: the avatars drawn and the overflow count add up to the team,
    * and the members not drawn are exactly those after the third. */
  lemma TeamStripCountsEveryone(team: seq<Member>)
    ensures |TeamStripOf(Some(team)).avatars| + (if TeamStripOf(Some(team)).overflow.Some? then TeamStripOf(Some(team)).overflow.value else 0) == |team|
    ensures TeamStripOf(Some(team)).avatars + team[|TeamStripOf(Some(team)).avatars|..] == team
    ensures TeamStripOf(Some(team)).overflow.None? ==> TeamStripOf(Some(team)).avatars == team
  {
    var t := TeamStripOf(Some(team));
    assert t.avatars + team[|t.avatars|..] == team[..|t.avatars|] + team[|t.avatars|..];
  }

  function AvatarUrl(m: Member): string
  {
    PanelPhotoUrl(m.foto)
  }

  /** A project as both panels read it: name, progress text and optional team. */
  datatype Project = Project(idProject: string, namaProject: string, progressProject: string, team: Option<seq<Member>>)

  datatype ProjectCard = ProjectCard(project: Project, badge: string, strip: TeamStrip)

  /** `projects?.map(...) || placeholder`: a card per project with its badge and team
    * strip, or None (the placeholder) only when the list is absent. */
  function ProjectCards(projects: Option<seq<Project>>): (cards: Option<seq<ProjectCard>>)
    ensures cards.None? <==> projects.None?
    ensures cards.Some? ==> |cards.value| == |projects.value|
    ensures cards.Some? ==> forall i :: 0 <= i < |cards.value| ==>
              cards.value[i].project == projects.value[i] &&
              cards.value[i].badge == ProgressBadgeClass(projects.value[i].progressProject) &&
              cards.value[i].strip == TeamStripOf(projects.value[i].team)
  {
    if projects.None? then None
    else
      var ps := projects.value;
      Some(seq(|ps|, i requires 0 <= i < |ps| =>
        ProjectCard(ps[i], ProgressBadgeClass(ps[i].progressProject), TeamStripOf(ps[i].team))))
  }

  /** No card draws more than three avatars. */
  lemma CardsDrawAtMostThreeAvatars(projects: seq<Project>)
    ensures forall i :: 0 <= i < |ProjectCards(Some(projects)).value| ==>
              |ProjectCards(Some(projects)).value[i].strip.avatars| <= AvatarLimit
  {
  }
}
