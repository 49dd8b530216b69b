/**
  The "add team member" form of the team dialog. The member list belongs to the
  dialog's owner: adding and removing are requests to it (`onAddMember`,
  `onRemoveMember`), modelled as the methods' results. The new member's id, from
  `Date.now()`, is a parameter.
 */
module TeamModal {
  import opened Js
  import opened Types

  /** The `newMember` draft. The form's inputs only ever store strings in it. */
  datatype Draft = Draft(name: string, role: string, bio: string)

  const EmptyDraft := Draft("", "", "")

  /** Both required fields are filled in. */
  predicate Complete(d: Draft) {
    d.name != "" && d.role != ""
  }

  /** The member `handleAdd` hands to `onAddMember`. */
  function MemberOf(d: Draft, id: string): (m: TeamMember)
    ensures m.id == id && m.name == d.name && m.role == d.role && m.bio == Some(d.bio)
  {
    TeamMember(id, d.name, d.role, Some(d.bio))
  }

  class Modal {
    var isAdding: bool
    var draft: Draft

    constructor ()
      ensures !isAdding && draft == EmptyDraft
    {
      isAdding := false;
      draft := EmptyDraft;
    }

    /** The "Add Member" button is enabled exactly when the draft is complete. */
    function AddEnabled(): (enabled: bool)
      reads this
      ensures enabled <==> draft.name != "" && draft.role != ""
    {
      Complete(draft)
    }

    /** The "Add Team Member" card opens the form. */
    method OpenForm()
      modifies this`isAdding
      ensures isAdding && draft == old(draft)
    {
      isAdding := true;
    }

    /** Typing into one of the three inputs. */
    method SetName(name: string)
      modifies this`draft
      ensures draft == old(draft).(name := name)
    {
      draft := draft.(name := name);
    }

    method SetRole(role: string)
      modifies this`draft
      ensures draft == old(draft).(role := role)
    {
      draft := draft.(role := role);
    }

    method SetBio(bio: string)
      modifies this`draft
      ensures draft == old(draft).(bio := bio)
    {
      draft := draft.(bio := bio);
    }

    /** `handleAdd`: with a name and a role, the draft becomes a member, the draft is
        reset and the form closes; otherwise nothing happens. */
    method HandleAdd(id: string) returns (added: Option<TeamMember>)
      modifies this
      ensures added.Some? <==> Complete(old(draft))
      ensures added.Some? ==> added.value == MemberOf(old(draft), id) && draft == EmptyDraft && !isAdding
      ensures added.None? ==> draft == old(draft) && isAdding == old(isAdding)
    {
      if Complete(draft) {
        added := Some(MemberOf(draft, id));
        draft := EmptyDraft;
        isAdding := false;
      } else {
        added := None;
      }
    }

    /** Cancel closes the form and keeps what was typed. */
    method Cancel()
      modifies this`isAdding
      ensures !isAdding && draft == old(draft)
    {
      isAdding := false;
    }

    /** The remove button of a member card asks for that member's id to be removed. */
    method Remove(member: TeamMember) returns (removedId: string)
      ensures removedId == member.id
    {
      removedId := member.id;
    }
  }
}
