/** The people view of the discovery page: a case-insensitive text search
    combined with an optional exact skill filter, and the skill chips that
    toggle that filter. */
module Discover {
  import opened Wrappers
  import opened Seqs
  import opened Text
  import opened Types

  /** The lower-cased name, bio or source contains the lower-cased term. */
  predicate MatchesSearch(u: UserProfile, term: string)
  {
    var t := Lower(term);
    Contains(Lower(u.name), t) || Contains(Lower(u.bio), t) || Contains(Lower(SourceName(u.source)), t)
  }

  /** The user offers a skill with exactly this name. */
  predicate Offers(u: UserProfile, skill: string)
  {
    exists i :: 0 <= i < |u.offeredSkills| && u.offeredSkills[i].name == skill
  }

  /** No skill selected (null, or the falsy empty string), or the user offers
      or desires a skill of exactly that name. */
  predicate MatchesSkill(u: UserProfile, selected: Option<string>)
  {
    selected.None? || selected.value == "" || Offers(u, selected.value) || selected.value in u.desiredSkills
  }

  /** `filteredUsers`: the users matching both the search and the skill
      filter, in list order. */
  function FilteredUsers(users: seq<UserProfile>, term: string, selected: Option<string>): (r: seq<UserProfile>)
    ensures IsSubsequence(r, users)
    ensures forall u :: u in r <==> u in users && MatchesSearch(u, term) && MatchesSkill(u, selected)
  {
    var keep := (u: UserProfile) => MatchesSearch(u, term) && MatchesSkill(u, selected);
    FilterIsSubsequence(keep, users);
    FilterMembership(keep, users);
    Filter(keep, users)
  }

  /** Every occurrence of a matching user is listed: a user occurs in the list
      as often as among all users when it matches, and not at all otherwise. */
  lemma FilteredUsersKeepEveryOccurrence(users: seq<UserProfile>, term: string, selected: Option<string>)
    ensures forall u :: multiset(FilteredUsers(users, term, selected))[u]
                        == if MatchesSearch(u, term) && MatchesSkill(u, selected) then multiset(users)[u] else 0
  {
    FilterMultiplicity((u: UserProfile) => MatchesSearch(u, term) && MatchesSkill(u, selected), users);
  }

  /** With an empty search box and no chip selected every user is listed. */
  lemma NoFilterListsEveryone(users: seq<UserProfile>)
    ensures FilteredUsers(users, "", None) == users
  {
    forall u | u in users
      ensures MatchesSearch(u, "")
    {
      assert IsPrefix(Lower(""), Lower(u.name));
    }
    FilterKeepsAll((u: UserProfile) => MatchesSearch(u, "") && MatchesSkill(u, None), users);
  }

  /** Selecting a skill never adds a user to the list. */
  lemma SkillFilterNarrows(users: seq<UserProfile>, term: string, skill: string)
    ensures IsSubsequence(FilteredUsers(users, term, Some(skill)), FilteredUsers(users, term, None))
  {
    FilterMonotone((u: UserProfile) => MatchesSearch(u, term) && MatchesSkill(u, Some(skill)),
                   (u: UserProfile) => MatchesSearch(u, term) && MatchesSkill(u, None), users);
  }

  /** Typing more (any term whose lower-cased form contains the previous
      one's) never adds a user to the list. */
  lemma TighterSearchNarrows(users: seq<UserProfile>, term: string, tighter: string, selected: Option<string>)
    requires Contains(Lower(tighter), Lower(term))
    ensures IsSubsequence(FilteredUsers(users, tighter, selected), FilteredUsers(users, term, selected))
  {
    forall u: UserProfile | MatchesSearch(u, tighter)
      ensures MatchesSearch(u, term)
    {
      var t, t' := Lower(term), Lower(tighter);
      if Contains(Lower(u.name), t') {
        ContainsTransitive(Lower(u.name), t', t);
      } else if Contains(Lower(u.bio), t') {
        ContainsTransitive(Lower(u.bio), t', t);
      } else {
        ContainsTransitive(Lower(SourceName(u.source)), t', t);
      }
    }
    FilterMonotone((u: UserProfile) => MatchesSearch(u, tighter) && MatchesSkill(u, selected),
                   (u: UserProfile) => MatchesSearch(u, term) && MatchesSkill(u, selected), users);
  }

  /** The search ignores the case of the term: terms that agree after
      lower-casing list the same users. */
  lemma SearchIgnoresCase(users: seq<UserProfile>, term: string, other: string, selected: Option<string>)
    requires Lower(term) == Lower(other)
    ensures FilteredUsers(users, term, selected) == FilteredUsers(users, other, selected)
  {
    FilterExtensional((u: UserProfile) => MatchesSearch(u, term) && MatchesSkill(u, selected),
                      (u: UserProfile) => MatchesSearch(u, other) && MatchesSkill(u, selected), users);
  }

  /** The skill filter does not ignore case: a user offering only "React"
      matches the chip "React" and not the chip "react", while the search
      "REACT" finds a user whose bio is "react". */
  lemma SkillFilterIsCaseSensitive()
    ensures var u := UserProfile("u1", "Ana", "CS", "Uni", Student, GitHub, "react",
                                 [Skill("React", Expert, "Tech")], [], 0, 0, "a.png", [], []);
            && MatchesSkill(u, Some("React"))
            && !MatchesSkill(u, Some("react"))
            && MatchesSearch(u, "REACT")
  {
    var u := UserProfile("u1", "Ana", "CS", "Uni", Student, GitHub, "react",
                         [Skill("React", Expert, "Tech")], [], 0, 0, "a.png", [], []);
    assert u.offeredSkills[0].name == "React";
    assert !Offers(u, "react") by {
      assert "React"[0] != "react"[0];
    }
    assert Lower("REACT") == "react";
    assert Lower(u.bio) == "react";
    assert IsPrefix(Lower("REACT"), Lower(u.bio));
  }

  /** A click on a skill chip: deselects it when it is the selected one,
      otherwise selects it. */
  function ToggleSkill(selected: Option<string>, skill: string): (r: Option<string>)
    ensures r.None? <==> selected == Some(skill)
    ensures r.Some? ==> r.value == skill
  {
    if selected == Some(skill) then None else Some(skill)
  }

  /** Two clicks on the same chip restore the selection when nothing or that
      chip was selected before. */
  lemma ToggleTwiceRestores(selected: Option<string>, skill: string)
    requires selected.None? || selected == Some(skill)
    ensures ToggleSkill(ToggleSkill(selected, skill), skill) == selected
  {
  }

  /** Starting from another selected chip, two clicks leave nothing selected. */
  lemma ToggleTwiceFromOtherSkillClears(other: string, skill: string)
    requires other != skill
    ensures ToggleSkill(ToggleSkill(Some(other), skill), skill) == None
  {
  }
}
