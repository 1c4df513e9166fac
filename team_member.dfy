/** A team member's profile card (TeamMember), in its default and compact
    variants. */
module TeamMember {
  import opened Wrappers
  import opened Cards

  datatype Member = Member(image: Option<Image>, id: string, name: string, role: string,
                           stats: Option<string>, bio: Option<string>, linkedin: Option<string>)

  datatype Variant = Default | Compact

  /** The avatar: the picture when the member has one, otherwise the
      initials. */
  datatype Avatar = Picture(src: string, alt: string) | Monogram(initials: string)

  datatype ProfileView = ProfileView(avatar: Avatar, name: string, role: string,
                                     stats: Option<string>, bio: Option<string>, linkedin: Option<string>)

  /** `x && !isCompact && …`: an optional text shown in the default variant
      only, when it is there and not empty. */
  function DefaultOnly(x: Option<string>, variant: Variant): (r: Option<string>)
    ensures r.Some? <==> Present(x) && variant == Default
    ensures r.Some? ==> r == x
  {
    if Present(x) && variant == Default then x else None
  }

  function View(m: Member, variant: Variant): ProfileView {
    var avatar :=
      if m.image.Some? then Picture(m.image.value.src, Or(m.image.value.alt, m.name))
      else Monogram(Initials(m.name));
    ProfileView(avatar, m.name, m.role, DefaultOnly(m.stats, variant), DefaultOnly(m.bio, variant),
                DefaultOnly(m.linkedin, variant))
  }

  /** With a picture the card shows it, named by its alt text or else the
      member's name; without one it shows the initials of the words of the
      name. The compact card never shows stats, bio or the LinkedIn link, and
      the default card shows each that is there. The name and role always
      show. */
  lemma ViewOfMember(m: Member, variant: Variant)
    ensures var v := View(m, variant);
      && (m.image.Some? <==> v.avatar.Picture?)
      && (v.avatar.Picture? ==>
            v.avatar.src == m.image.value.src
            && v.avatar.alt == (if m.image.value.alt != "" then m.image.value.alt else m.name))
      && (v.avatar.Monogram? ==> v.avatar.initials == WordStarts(m.name, true))
      && (variant == Compact ==> v.stats.None? && v.bio.None? && v.linkedin.None?)
      && (variant == Default ==>
            (v.stats.Some? <==> Present(m.stats)) && (v.bio.Some? <==> Present(m.bio))
            && (v.linkedin.Some? <==> Present(m.linkedin)))
      && v.name == m.name && v.role == m.role
  {
    InitialsAreWordStarts(m.name);
  }
}
